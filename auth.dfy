// Users and the mock login with refresh-token rotation
// (user/domain/User.java, auth/service/AuthService.java).
//
// The JWT provider is not part of this model: the tokens it would mint are
// parameters of the service methods, and the outcome of validateToken is a
// boolean parameter. A null column is None.

module Auth {
  import opened Common

  /** The user role; the enum's values are not part of this model, so a role is known by its name. */
  datatype Role = Role(name: string)

  class User {
    const id: int
    const kakaoId: string
    const email: string
    var nickname: string
    var profileImageUrl: Option<string>
    var role: Role
    var refreshToken: Option<string>

    constructor (id: int, kakaoId: string, email: string, nickname: string, profileImageUrl: Option<string>, role: Role)
      ensures this.id == id && this.kakaoId == kakaoId && this.email == email
      ensures this.nickname == nickname && this.profileImageUrl == profileImageUrl && this.role == role
      ensures refreshToken == None
    {
      this.id := id;
      this.kakaoId := kakaoId;
      this.email := email;
      this.nickname := nickname;
      this.profileImageUrl := profileImageUrl;
      this.role := role;
      refreshToken := None;
    }

    /** updateRefreshToken: stores exactly its argument, null included. */
    method UpdateRefreshToken(token: Option<string>)
      modifies this
      ensures refreshToken == token
      ensures nickname == old(nickname) && profileImageUrl == old(profileImageUrl) && role == old(role)
    {
      refreshToken := token;
    }

    /** updateProfile: each field is replaced only by a non-null argument, independently of the other. */
    method UpdateProfile(nickname: Option<string>, profileImageUrl: Option<string>)
      modifies this
      ensures nickname.Some? ==> this.nickname == nickname.value
      ensures nickname.None? ==> this.nickname == old(this.nickname)
      ensures profileImageUrl.Some? ==> this.profileImageUrl == profileImageUrl
      ensures profileImageUrl.None? ==> this.profileImageUrl == old(this.profileImageUrl)
      ensures role == old(role) && refreshToken == old(refreshToken)
    {
      if nickname.Some? {
        this.nickname := nickname.value;
      }
      if profileImageUrl.Some? {
        this.profileImageUrl := profileImageUrl;
      }
    }

    /** updateRole: sets the role and nothing else. */
    method UpdateRole(role: Role)
      modifies this
      ensures this.role == role
      ensures nickname == old(nickname) && profileImageUrl == old(profileImageUrl) && refreshToken == old(refreshToken)
    {
      this.role := role;
    }
  }

  // ------------------------------------------------------------ the users table

  /** findById. */
  function FindById(users: seq<User>, id: int): (r: Option<User>)
    ensures r.Some? ==> r.value in users && r.value.id == id
    ensures r.None? ==> forall i | 0 <= i < |users| :: users[i].id != id
  {
    FindFirst(users, (u: User) => u.id == id)
  }

  /** In a table whose ids are 1, 2, 3, ... in order, id k is the k-th row. */
  lemma FindByIdNumbered(users: seq<User>, k: int)
    requires forall i | 0 <= i < |users| :: users[i].id == i + 1
    requires 1 <= k <= |users|
    ensures FindById(users, k) == Some(users[k - 1])
  {
  }

  /** findByKakaoId. */
  function FindByKakaoId(users: seq<User>, kakaoId: string): (r: Option<User>)
    ensures r.Some? ==> r.value in users && r.value.kakaoId == kakaoId
    ensures r.None? ==> forall i | 0 <= i < |users| :: users[i].kakaoId != kakaoId
  {
    FindFirst(users, (u: User) => u.kakaoId == kakaoId)
  }

  /** findByRefreshToken: a user whose stored token is exactly this one. */
  function FindByRefreshToken(users: seq<User>, token: string): (r: Option<User>)
    reads users
    ensures r.Some? ==> r.value in users && r.value.refreshToken == Some(token)
    ensures r.None? ==> forall i | 0 <= i < |users| :: users[i].refreshToken != Some(token)
  {
    if users == [] then None
    else if users[0].refreshToken == Some(token) then Some(users[0])
    else FindByRefreshToken(users[1..], token)
  }

  const TokenType: string := "Bearer"
  const EmailDomain: string := "@example.com"
  const PlaceholderImage: string := "https://via.placeholder.com/150"

  datatype JwtToken = JwtToken(accessToken: string, refreshToken: string, tokenType: string, expiresIn: int)

  datatype LoginResponse = LoginResponse(
    userId: int,
    email: string,
    nickname: string,
    profileImageUrl: Option<string>,
    role: Role,
    token: JwtToken,
    isNewUser: bool)

  class AuthService {
    var users: seq<User>
    /** The access-token lifetime the JWT provider reports. */
    const accessTokenExpiration: int

    /** Ids are assigned 1, 2, 3, ... in save order, and kakao ids are unique. */
    ghost predicate Valid()
      reads this
    {
      && (forall i | 0 <= i < |users| :: users[i].id == i + 1)
      && (forall i, j | 0 <= i < j < |users| :: users[i].kakaoId != users[j].kakaoId)
    }

    constructor (accessTokenExpiration: int)
      ensures Valid() && users == [] && this.accessTokenExpiration == accessTokenExpiration
    {
      users := [];
      this.accessTokenExpiration := accessTokenExpiration;
    }

    /** createUser: a mock user named after the username. */
    method CreateUser(username: string, role: Role) returns (user: User)
      requires Valid()
      requires FindByKakaoId(users, username).None?
      modifies this
      ensures Valid()
      ensures fresh(user) && users == old(users) + [user] && user.id == |old(users)| + 1
      ensures user.kakaoId == username && user.email == username + EmailDomain && user.nickname == username
      ensures user.profileImageUrl == Some(PlaceholderImage) && user.role == role && user.refreshToken == None
    {
      user := new User(|users| + 1, username, username + EmailDomain, username, Some(PlaceholderImage), role);
      users := users + [user];
    }

    /**
     * login: finds the user whose kakao id is the username, or creates one;
     * the user is new exactly when no refresh token was stored; the minted
     * refresh token is stored and returned. An existing user's role is kept.
     */
    method Login(username: string, role: Role, accessToken: string, refreshToken: string)
      returns (r: LoginResponse)
      requires Valid()
      modifies this, users
      ensures Valid()
      ensures var existing := old(FindByKakaoId(users, username));
              && (existing.Some? ==> && users == old(users) && r.userId == existing.value.id
                                     && r.role == old(existing.value.role)
                                     && r.isNewUser == old(existing.value.refreshToken).None?)
              && (existing.None? ==> && |users| == |old(users)| + 1 && users[..|old(users)|] == old(users)
                                     && fresh(users[|old(users)|]) && r.userId == |old(users)| + 1
                                     && r.email == username + EmailDomain && r.nickname == username
                                     && r.profileImageUrl == Some(PlaceholderImage) && r.role == role && r.isNewUser)
      ensures FindById(users, r.userId).Some?
      ensures var u := FindById(users, r.userId).value;
              && u.kakaoId == username && u.refreshToken == Some(refreshToken) && u.role == r.role
              && r.email == u.email && r.nickname == u.nickname && r.profileImageUrl == u.profileImageUrl
      ensures r.token == JwtToken(accessToken, refreshToken, TokenType, accessTokenExpiration)
      ensures |old(users)| <= |users| && users[..|old(users)|] == old(users)
      ensures forall i | 0 <= i < |old(users)| && users[i].id != r.userId ::
                users[i].refreshToken == old(users[i].refreshToken)
      ensures forall i | 0 <= i < |old(users)| :: users[i].role == old(users[i].role)
      ensures forall i | 0 <= i < |old(users)| ::
                users[i].nickname == old(users[i].nickname) && users[i].profileImageUrl == old(users[i].profileImageUrl)
    {
      var user := FindOrCreateUser(username, role);
      var isNewUser := user.refreshToken.None?;
      StoreRefreshToken(user, refreshToken);
      r := LoginResponse(user.id, user.email, user.nickname, user.profileImageUrl, user.role,
                         JwtToken(accessToken, refreshToken, TokenType, accessTokenExpiration), isNewUser);
    }

    /** The token store of login: the user's refresh token becomes this one, and no other user changes. */
    method StoreRefreshToken(user: User, token: string)
      requires Valid() && 1 <= user.id <= |users| && users[user.id - 1] == user
      modifies user
      ensures Valid()
      ensures FindById(users, user.id) == Some(user) && user.refreshToken == Some(token)
      ensures user.nickname == old(user.nickname) && user.profileImageUrl == old(user.profileImageUrl)
      ensures forall i | 0 <= i < |users| && users[i].id != user.id :: users[i].refreshToken == old(users[i].refreshToken)
      ensures forall i | 0 <= i < |users| :: users[i].role == old(users[i].role)
      ensures forall i | 0 <= i < |users| :: users[i].nickname == old(users[i].nickname) && users[i].profileImageUrl == old(users[i].profileImageUrl)
    {
      user.UpdateRefreshToken(Some(token));
      FindByIdNumbered(users, user.id);
    }

    /** The user lookup of login: the user with this kakao id, or a new one created for it. */
    method FindOrCreateUser(username: string, role: Role) returns (user: User)
      requires Valid()
      modifies this
      ensures Valid()
      ensures var existing := old(FindByKakaoId(users, username));
              && (existing.Some? ==> users == old(users) && user == existing.value)
              && (existing.None? ==> && users == old(users) + [user] && fresh(user) && user.id == |old(users)| + 1
                                     && user.email == username + EmailDomain && user.nickname == username
                                     && user.profileImageUrl == Some(PlaceholderImage) && user.role == role
                                     && user.refreshToken == None)
      ensures user.kakaoId == username && 1 <= user.id <= |users| && users[user.id - 1] == user
    {
      var found := FindByKakaoId(users, username);
      if found.Some? {
        user := found.value;
      } else {
        user := CreateUser(username, role);
      }
    }

    /**
     * refreshToken: an invalid token is refused, so is a valid one that no
     * user holds; otherwise the holder's token is rotated to the new one,
     * which is returned.
     */
    method RefreshToken(token: string, valid: bool, accessToken: string, newRefreshToken: string)
      returns (r: Result<JwtToken>)
      requires Valid()
      modifies users
      ensures Valid() && users == old(users)
      ensures !valid ==> r == Failure(InvalidToken)
      ensures valid && old(FindByRefreshToken(users, token)).None? ==> r == Failure(UserNotFound)
      ensures r.Failure? ==> forall i | 0 <= i < |users| :: users[i].refreshToken == old(users[i].refreshToken)
      ensures valid && old(FindByRefreshToken(users, token)).Some? ==>
                && r == Success(JwtToken(accessToken, newRefreshToken, TokenType, accessTokenExpiration))
                && old(FindByRefreshToken(users, token)).value.refreshToken == Some(newRefreshToken)
                && forall i | 0 <= i < |users| && users[i] != old(FindByRefreshToken(users, token)).value ::
                     users[i].refreshToken == old(users[i].refreshToken)
      ensures forall i | 0 <= i < |users| :: users[i].role == old(users[i].role)
      ensures forall i | 0 <= i < |users| :: users[i].nickname == old(users[i].nickname) && users[i].profileImageUrl == old(users[i].profileImageUrl)
    {
      if !valid {
        return Failure(InvalidToken);
      }
      var found := FindByRefreshToken(users, token);
      if found.None? {
        return Failure(UserNotFound);
      }
      found.value.UpdateRefreshToken(Some(newRefreshToken));
      r := Success(JwtToken(accessToken, newRefreshToken, TokenType, accessTokenExpiration));
    }

    /**
     * logout: an unknown user is refused; otherwise the stored token is
     * cleared, so no token at all finds that user any more.
     */
    method Logout(userId: int) returns (err: Option<Failure>)
      requires Valid()
      modifies users
      ensures Valid() && users == old(users)
      ensures err.Some? <==> FindById(users, userId).None?
      ensures err.Some? ==> err == Some(UserNotFound)
      ensures err.None? ==> FindById(users, userId).value.refreshToken == None
                            && forall t :: FindByRefreshToken(users, t) != FindById(users, userId)
      ensures forall i | 0 <= i < |users| && users[i].id != userId :: users[i].refreshToken == old(users[i].refreshToken)
      ensures forall i | 0 <= i < |users| :: users[i].role == old(users[i].role)
      ensures forall i | 0 <= i < |users| :: users[i].nickname == old(users[i].nickname) && users[i].profileImageUrl == old(users[i].profileImageUrl)
    {
      var found := FindById(users, userId);
      if found.None? {
        return Some(UserNotFound);
      }
      found.value.UpdateRefreshToken(None);
      err := None;
    }

    /** getUserById. */
    function GetUserById(userId: int): (r: Result<User>)
      reads this
      ensures r.Success? <==> exists i | 0 <= i < |users| :: users[i].id == userId
      ensures r.Success? ==> r.value in users && r.value.id == userId
      ensures r.Failure? ==> r.error == UserNotFound
    {
      match FindById(users, userId)
      case None => Failure(UserNotFound)
      case Some(u) => Success(u)
    }

    /** getUserByKakaoId. */
    function GetUserByKakaoId(kakaoId: string): (r: Result<User>)
      reads this
      ensures r.Success? <==> exists i | 0 <= i < |users| :: users[i].kakaoId == kakaoId
      ensures r.Success? ==> r.value in users && r.value.kakaoId == kakaoId
      ensures r.Failure? ==> r.error == UserNotFound
    {
      match FindByKakaoId(users, kakaoId)
      case None => Failure(UserNotFound)
      case Some(u) => Success(u)
    }

    /** updateUserRole: an unknown user is refused; otherwise only that user's role changes. */
    method UpdateUserRole(userId: int, role: Role) returns (err: Option<Failure>)
      requires Valid()
      modifies users
      ensures Valid() && users == old(users)
      ensures err.Some? <==> FindById(users, userId).None?
      ensures err.Some? ==> err == Some(UserNotFound)
      ensures err.None? ==> FindById(users, userId).value.role == role
      ensures forall i | 0 <= i < |users| :: users[i].refreshToken == old(users[i].refreshToken)
      ensures forall i | 0 <= i < |users| && users[i].id != userId :: users[i].role == old(users[i].role)
      ensures forall i | 0 <= i < |users| :: users[i].nickname == old(users[i].nickname) && users[i].profileImageUrl == old(users[i].profileImageUrl)
    {
      var found := GetUserById(userId);
      if found.Failure? {
        return Some(UserNotFound);
      }
      found.value.UpdateRole(role);
      err := None;
    }
  }
}
