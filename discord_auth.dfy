/** The Discord sign-in adapter of the store page (discord-auth.js, class
    `DiscordAuth`): the access token and profile of the signed-in user, the
    redirect round trip through Discord's OAuth2 page, and the per-user
    purchase and key lists kept under `purchases_<id>` and `keys_<id>`.

    The profile request to `/users/@me` is a parameter (`ProfileFetch`),
    the random text behind a key code is a parameter, and dates are local
    calendar moments. */
module DiscordAuth {
  import opened Common
  import opened Text

  const ClientId := "1462431933425516644"
  const ApiUrl := "https://discord.com/api/v10"

  /** `DISCORD_OAUTH_URL`: the implicit-grant authorisation page, with the
      redirect URI `https://enm-store.netlify.app` percent-encoded. */
  const AuthorizeUrl := "https://discord.com/api/oauth2/authorize?client_id=" + ClientId
    + "&redirect_uri=https%3A%2F%2Fenm-store.netlify.app&response_type=token&scope=identify%20email"

  const AvatarBase := "https://cdn.discordapp.com/avatars/"
  const DefaultAvatar := "https://cdn.discordapp.com/embed/avatars/0.png"

  /** A local date and time: a calendar day number and the milliseconds
      into that day. `setDate(getDate() + n)` moves the day and keeps the
      time of day. */
  datatype Moment = Moment(day: int, msOfDay: nat)

  predicate Before(a: Moment, b: Moment)
  {
    a.day < b.day || (a.day == b.day && a.msOfDay < b.msOfDay)
  }

  function AddDays(m: Moment, n: int): Moment
  {
    m.(day := m.day + n)
  }

  /** The profile returned by `/users/@me`. */
  datatype User = User(id: string, username: string, avatar: Option<string>, email: Option<string>)

  /** How the profile request ended: an ok response with the profile, a
      response that is not ok, or a request that threw. */
  datatype ProfileFetch = Profile(user: User) | Rejected | Unreachable

  /** The object handed to `recordPurchase`; `kind` is its `type`. */
  datatype PurchaseData = PurchaseData(
    transactionId: Option<string>,
    name: string,
    price: string,
    kind: string,
    key: Option<string>)

  /** A stored purchase: the handed-in fields plus date, user and status. */
  datatype Purchase = Purchase(data: PurchaseData, date: Moment, userId: string, status: string)

  /** A stored account key. */
  datatype KeyRecord = KeyRecord(
    name: string,
    kind: string,
    code: string,
    date: Moment,
    active: bool,
    expiry: Option<Moment>)

  /** JavaScript truthiness of a stored string: present and not empty. */
  predicate Truthy(s: Option<string>)
  {
    s.Some? && s.value != ""
  }

  /** The key types with a limited lifetime. */
  predicate IsTimed(kind: string)
  {
    kind == "24h" || kind == "7d" || kind == "30d"
  }

  /** `calculateExpiry(type)`: one, seven or thirty calendar days after
      `now` for the timed types, nothing for any other type. */
  function CalculateExpiry(kind: string, now: Moment): (r: Option<Moment>)
    ensures r.None? <==> !IsTimed(kind)
    ensures r.Some? ==> Before(now, r.value) && r.value.msOfDay == now.msOfDay
    ensures r.Some? ==> r.value.day - now.day == (if kind == "24h" then 1 else if kind == "7d" then 7 else 30)
  {
    if kind == "24h" then Some(AddDays(now, 1))
    else if kind == "7d" then Some(AddDays(now, 7))
    else if kind == "30d" then Some(AddDays(now, 30))
    else None
  }

  /** The `expiry` of a new key: none for lifetime keys, otherwise what
      `calculateExpiry` gives. The lifetime test changes nothing: the
      expiry is absent exactly for the types outside the table. */
  function KeyExpiry(kind: string, now: Moment): (r: Option<Moment>)
    ensures r.None? <==> !IsTimed(kind)
    ensures r.Some? ==> Before(now, r.value)
  {
    if kind == "lifetime" then None else CalculateExpiry(kind, now)
  }

  function UpperGroups(groups: seq<string>): (r: seq<string>)
    ensures |r| == |groups|
    ensures forall i :: 0 <= i < |r| ==> r[i] == Upper(groups[i])
  {
    seq(|groups|, i requires 0 <= i < |groups| => Upper(groups[i]))
  }

  /** `generateKeyCode()`: `ENM-` and four upper-cased random groups joined
      by `-`. The four groups are the four `Math.random` draws. */
  function GenerateKeyCode(groups: seq<string>): (code: string)
    requires |groups| == 4
    ensures StartsWith(code, "ENM-")
  {
    var code := "ENM-" + Join(UpperGroups(groups), '-');
    assert code[..4] == "ENM-";
    code
  }

  /** A key code splits back into `ENM` and exactly its four groups. */
  lemma KeyCodeGroups(groups: seq<string>)
    requires |groups| == 4
    requires forall i :: 0 <= i < 4 ==> IsBase36(groups[i])
    ensures Split(GenerateKeyCode(groups), '-') == ["ENM"] + UpperGroups(groups)
  {
    var u := UpperGroups(groups);
    var parts := ["ENM"] + u;
    assert parts[1..] == u;
    assert Join(parts, '-') == "ENM" + "-" + Join(u, '-');
    assert GenerateKeyCode(groups) == Join(parts, '-');
    forall i | 0 <= i < |parts|
      ensures '-' !in parts[i]
    {
      if i > 0 {
        Base36LacksDash(groups[i - 1]);
      }
    }
    SplitJoin(parts, '-');
  }

  predicate HasAvatar(u: User)
  {
    Truthy(u.avatar)
  }

  /** The CDN picture of a user with an avatar hash. */
  function AvatarPath(u: User): string
    requires HasAvatar(u)
  {
    AvatarBase + u.id + "/" + u.avatar.value + ".png"
  }

  lemma AvatarPathIsNotDefault(u: User)
    requires HasAvatar(u)
    ensures StartsWith(AvatarPath(u), AvatarBase)
    ensures AvatarPath(u) != DefaultAvatar
    ensures AvatarPath(u) + "?size=256" != DefaultAvatar
  {
    var p := AvatarPath(u);
    assert p[..|AvatarBase|] == AvatarBase;
    assert p[27] == 'a' && DefaultAvatar[27] == 'e';
    assert (p + "?size=256")[27] == 'a';
  }

  /** The header picture (`showUserProfile`): the user's own avatar at
      256 pixels when there is an avatar hash, else the default avatar. */
  function ProfileAvatarUrl(u: User): (r: string)
    ensures r != DefaultAvatar <==> HasAvatar(u)
    ensures HasAvatar(u) ==> StartsWith(r, AvatarPath(u))
    ensures HasAvatar(u) ==> r == AvatarPath(u) + "?size=256"
  {
    if HasAvatar(u) then
      AvatarPathIsNotDefault(u);
      var r := AvatarPath(u) + "?size=256";
      assert r[..|AvatarPath(u)|] == AvatarPath(u);
      r
    else DefaultAvatar
  }

  /** The account-tab picture (`updateAccountTab`): the same choice, with
      no size parameter. */
  function AccountAvatarUrl(u: User): (r: string)
    ensures r != DefaultAvatar <==> HasAvatar(u)
    ensures HasAvatar(u) ==> StartsWith(r, AvatarBase)
    ensures HasAvatar(u) ==> r == AvatarPath(u)
  {
    if HasAvatar(u) then
      AvatarPathIsNotDefault(u);
      AvatarPath(u)
    else DefaultAvatar
  }

  /** Both pictures show the same image: the header one only adds a size. */
  lemma ProfileAvatarIsSizedAccountAvatar(u: User)
    ensures HasAvatar(u) ==> ProfileAvatarUrl(u) == AccountAvatarUrl(u) + "?size=256"
    ensures !HasAvatar(u) ==> ProfileAvatarUrl(u) == AccountAvatarUrl(u)
  {
  }

  /** The status badge of a key. */
  function StatusLabel(k: KeyRecord): (r: string)
    ensures r == "Active" <==> k.active
    ensures r == "Active" || r == "Expired"
  {
    if k.active then "Active" else "Expired"
  }

  /** The expiry line of a key; `localDate` is `toLocaleDateString`. */
  function ExpiryLabel(k: KeyRecord, localDate: Moment -> string): (r: string)
    ensures r == "Lifetime" <==> k.expiry.None?
    ensures k.expiry.Some? ==> StartsWith(r, "Expires: ")
  {
    if k.expiry.Some? then
      var r := "Expires: " + localDate(k.expiry.value);
      assert r[0] == 'E';
      assert r[..9] == "Expires: ";
      r
    else "Lifetime"
  }

  /** Where the OAuth2 callback sends the browser: the stored return URL,
      or the site root when none (or an empty one) is stored. */
  function ReturnTarget(stored: Option<string>): (r: string)
    ensures r != ""
    ensures Truthy(stored) ==> r == stored.value
    ensures !Truthy(stored) ==> r == "/"
  {
    if Truthy(stored) then stored.value else "/"
  }

  /** The storage keys of a user's lists. */
  function PurchasesKey(userId: string): string
  {
    "purchases_" + userId
  }

  function KeysKey(userId: string): string
  {
    "keys_" + userId
  }

  /** Each user has their own two lists, and a purchase list is never a
      key list. */
  lemma StorageKeysDistinct(a: string, b: string)
    ensures PurchasesKey(a) == PurchasesKey(b) <==> a == b
    ensures KeysKey(a) == KeysKey(b) <==> a == b
    ensures PurchasesKey(a) != KeysKey(b)
  {
    assert PurchasesKey(a)[0] == 'p' && KeysKey(b)[0] == 'k';
    if PurchasesKey(a) == PurchasesKey(b) {
      assert a == PurchasesKey(a)[10..] == PurchasesKey(b)[10..] == b;
    }
    if KeysKey(a) == KeysKey(b) {
      assert a == KeysKey(a)[5..] == KeysKey(b)[5..] == b;
    }
  }

  /** The purchase `recordPurchase` stores. */
  function NewPurchase(data: PurchaseData, now: Moment, userId: string): Purchase
  {
    Purchase(data, now, userId, "completed")
  }

  /** What every stored key satisfies: a timed key expires after it was
      made, any other key has no expiry. */
  predicate ExpiryMatchesKind(k: KeyRecord)
  {
    (k.expiry.None? <==> !IsTimed(k.kind))
    && (k.expiry.Some? ==> Before(k.date, k.expiry.value))
  }

  /** The key `recordPurchase` stores and shows. */
  function NewKey(data: PurchaseData, now: Moment, groups: seq<string>): (k: KeyRecord)
    requires |groups| == 4
    ensures k.active && k.name == data.name && k.kind == data.kind
    ensures k.code == GenerateKeyCode(groups) && k.date == now
    ensures ExpiryMatchesKind(k)
    ensures k.expiry.Some? ==> k.expiry == CalculateExpiry(data.kind, now)
  {
    KeyRecord(data.name, data.kind, GenerateKeyCode(groups), now, true, KeyExpiry(data.kind, now))
  }

  predicate AllKeysWellFormed(keys: map<string, seq<KeyRecord>>)
  {
    forall id, i | id in keys && 0 <= i < |keys[id]| :: ExpiryMatchesKind(keys[id][i])
  }

  /** Recording a purchase keeps every stored key well formed. */
  lemma RecordingKeepsKeysWellFormed(keys: map<string, seq<KeyRecord>>, id: string, k: KeyRecord)
    requires AllKeysWellFormed(keys) && ExpiryMatchesKind(k)
    ensures AllKeysWellFormed(Appended(keys, id, k))
  {
    var r := Appended(keys, id, k);
    forall j, i | j in r && 0 <= i < |r[j]|
      ensures ExpiryMatchesKind(r[j][i])
    {
      assert r[j] == Stored(r, j);
      if j == id {
        assert Stored(r, j) == Stored(keys, j) + [k];
      } else {
        assert Stored(r, j) == Stored(keys, j);
      }
    }
  }

  /** There is no de-duplication: recording the same purchase twice stores
      it twice. */
  lemma RecordingTwiceStoresTwice(m: map<string, seq<Purchase>>, id: string, p: Purchase)
    ensures Stored(Appended(Appended(m, PurchasesKey(id), p), PurchasesKey(id), p), PurchasesKey(id))
         == Stored(m, PurchasesKey(id)) + [p, p]
  {
  }

  /** One `DiscordAuth` instance and the browser storage it uses. */
  class Session {
    var accessToken: Option<string>
    var user: Option<User>
    /** `localStorage.discord_access_token` */
    var storedToken: Option<string>
    /** `localStorage.return_url` */
    var returnUrl: Option<string>
    /** `localStorage.purchases_<id>` for every user id */
    var purchases: map<string, seq<Purchase>>
    /** `localStorage.keys_<id>` for every user id */
    var keys: map<string, seq<KeyRecord>>

    predicate SignedOut()
      reads this
    {
      accessToken.None? && user.None? && storedToken.None?
    }

    /** `new DiscordAuth()`: starts signed out and runs `checkAuth`
        against what the browser has stored. */
    constructor(token: Option<string>, savedReturnUrl: Option<string>,
                savedPurchases: map<string, seq<Purchase>>, savedKeys: map<string, seq<KeyRecord>>,
                fetch: ProfileFetch)
      ensures !Truthy(token) ==> accessToken.None? && user.None? && storedToken == token
      ensures Truthy(token) && fetch.Profile? ==>
        accessToken == token && storedToken == token && user == Some(fetch.user)
      ensures Truthy(token) && !fetch.Profile? ==> SignedOut()
      ensures returnUrl == savedReturnUrl && purchases == savedPurchases && keys == savedKeys
    {
      accessToken := None;
      user := None;
      storedToken := token;
      returnUrl := savedReturnUrl;
      purchases := savedPurchases;
      keys := savedKeys;
      new;
      CheckAuth(fetch);
    }

    /** `checkAuth`: a stored token becomes the access token and the
        profile is fetched with it; without one nothing changes. */
    method CheckAuth(fetch: ProfileFetch)
      modifies this
      ensures !Truthy(old(storedToken)) ==>
        accessToken == old(accessToken) && user == old(user) && storedToken == old(storedToken)
      ensures Truthy(old(storedToken)) && fetch.Profile? ==>
        accessToken == old(storedToken) && storedToken == old(storedToken) && user == Some(fetch.user)
      ensures Truthy(old(storedToken)) && !fetch.Profile? ==> SignedOut()
      ensures returnUrl == old(returnUrl) && purchases == old(purchases) && keys == old(keys)
    {
      if Truthy(storedToken) {
        accessToken := storedToken;
        GetUserInfo(fetch);
      }
    }

    /** `login`: remembers the page to come back to and sends the browser
        to Discord's authorisation page. */
    method Login(currentUrl: string) returns (target: string)
      modifies this
      ensures target == AuthorizeUrl
      ensures returnUrl == Some(currentUrl)
      ensures accessToken == old(accessToken) && user == old(user) && storedToken == old(storedToken)
      ensures purchases == old(purchases) && keys == old(keys)
    {
      returnUrl := Some(currentUrl);
      target := AuthorizeUrl;
    }

    /** `handleCallback`: `hashToken` is the `access_token` parameter of
        the URL fragment, if any. A token is stored and used to fetch the
        profile; then the browser goes to the stored return URL (or `/`),
        which is removed. Without a token nothing happens. */
    method HandleCallback(hashToken: Option<string>, fetch: ProfileFetch) returns (redirect: Option<string>)
      modifies this
      ensures !Truthy(hashToken) ==>
        redirect.None? && accessToken == old(accessToken) && user == old(user)
        && storedToken == old(storedToken) && returnUrl == old(returnUrl)
      ensures Truthy(hashToken) ==> redirect == Some(ReturnTarget(old(returnUrl))) && returnUrl.None?
      ensures Truthy(hashToken) && fetch.Profile? ==>
        accessToken == hashToken && storedToken == hashToken && user == Some(fetch.user)
      ensures Truthy(hashToken) && !fetch.Profile? ==> SignedOut()
      ensures purchases == old(purchases) && keys == old(keys)
    {
      redirect := None;
      if Truthy(hashToken) {
        storedToken := hashToken;
        accessToken := hashToken;
        GetUserInfo(fetch);
        redirect := Some(ReturnTarget(returnUrl));
        returnUrl := None;
      }
    }

    /** `getUserInfo`: without an access token nothing happens; an ok
        response signs the user in; a response that is not ok, or a failed
        request, logs out. */
    method GetUserInfo(fetch: ProfileFetch)
      modifies this
      ensures !Truthy(old(accessToken)) ==>
        accessToken == old(accessToken) && user == old(user) && storedToken == old(storedToken)
      ensures Truthy(old(accessToken)) && fetch.Profile? ==>
        accessToken == old(accessToken) && storedToken == old(storedToken) && user == Some(fetch.user)
      ensures Truthy(old(accessToken)) && !fetch.Profile? ==> SignedOut()
      ensures returnUrl == old(returnUrl) && purchases == old(purchases) && keys == old(keys)
    {
      if Truthy(accessToken) {
        match fetch
        case Profile(u) =>
          user := Some(u);
        case Rejected =>
          Logout();
        case Unreachable =>
          Logout();
      }
    }

    /** `logout`: forgets the token, in memory and in storage, and the user. */
    method Logout()
      modifies this
      ensures SignedOut()
      ensures returnUrl == old(returnUrl) && purchases == old(purchases) && keys == old(keys)
    {
      storedToken := None;
      accessToken := None;
      user := None;
    }

    /** `recordPurchase`: with nobody signed in nothing is stored. Otherwise
        one purchase and one new key are appended to the user's two lists
        (with no check for an earlier copy), and the key is returned for
        the success dialog. `groups` are the random groups of the key code. */
    method RecordPurchase(data: PurchaseData, now: Moment, groups: seq<string>) returns (shown: Option<KeyRecord>)
      requires |groups| == 4
      modifies this
      ensures accessToken == old(accessToken) && user == old(user)
      ensures storedToken == old(storedToken) && returnUrl == old(returnUrl)
      ensures old(user).None? ==> shown.None? && purchases == old(purchases) && keys == old(keys)
      ensures old(user).Some? ==>
        var id := old(user).value.id;
        && purchases == Appended(old(purchases), PurchasesKey(id), NewPurchase(data, now, id))
        && keys == Appended(old(keys), KeysKey(id), NewKey(data, now, groups))
        && shown == Some(NewKey(data, now, groups))
      ensures AllKeysWellFormed(old(keys)) ==> AllKeysWellFormed(keys)
    {
      shown := None;
      if user.Some? {
        var id := user.value.id;
        var k := NewKey(data, now, groups);
        if AllKeysWellFormed(keys) {
          RecordingKeepsKeysWellFormed(keys, KeysKey(id), k);
        }
        purchases := Appended(purchases, PurchasesKey(id), NewPurchase(data, now, id));
        keys := Appended(keys, KeysKey(id), k);
        shown := Some(k);
      }
    }
  }
}
