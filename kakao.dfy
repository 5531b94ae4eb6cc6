// The fallback accessors of the Kakao user-info record
// (oauth/dto/KakaoUserInfo.java). Every field of the four records
// modelled here is an Option, and None stands for a JSON null.

module KakaoUserInfos {
  import opened Common

  datatype Profile = Profile(
    nickname: Option<string>,
    thumbnailImageUrl: Option<string>,
    profileImageUrl: Option<string>,
    isDefaultImage: Option<bool>)

  datatype KakaoAccount = KakaoAccount(
    profileNeedsAgreement: Option<bool>,
    profile: Option<Profile>,
    hasEmail: Option<bool>,
    emailNeedsAgreement: Option<bool>,
    isEmailValid: Option<bool>,
    isEmailVerified: Option<bool>,
    email: Option<string>)

  datatype Properties = Properties(
    nickname: Option<string>,
    profileImage: Option<string>,
    thumbnailImage: Option<string>)

  datatype KakaoUserInfo = KakaoUserInfo(
    id: Option<int>,
    connectedAt: Option<string>,
    kakaoAccount: Option<KakaoAccount>,
    properties: Option<Properties>)

  const UnknownNickname: string := "Unknown"

  /** getEmail: the account's email when the account and the email are both present, else null. */
  function GetEmail(info: KakaoUserInfo): (r: Option<string>)
    ensures r.Some? <==> info.kakaoAccount.Some? && info.kakaoAccount.value.email.Some?
    ensures r.Some? ==> r == info.kakaoAccount.value.email
  {
    if info.kakaoAccount.Some? && info.kakaoAccount.value.email.Some? then info.kakaoAccount.value.email
    else None
  }

  /** The profile's nickname, when every record on the way is present. */
  function ProfileNickname(info: KakaoUserInfo): Option<string>
  {
    if info.kakaoAccount.Some? && info.kakaoAccount.value.profile.Some? then info.kakaoAccount.value.profile.value.nickname
    else None
  }

  /** The properties' nickname, when the properties are present. */
  function PropertiesNickname(info: KakaoUserInfo): Option<string>
  {
    if info.properties.Some? then info.properties.value.nickname else None
  }

  /**
   * getNickname: the profile nickname wins over the properties nickname,
   * and "Unknown" stands in when neither is present; never null.
   */
  function GetNickname(info: KakaoUserInfo): (r: string)
    ensures ProfileNickname(info).Some? ==> r == ProfileNickname(info).value
    ensures ProfileNickname(info).None? && PropertiesNickname(info).Some? ==> r == PropertiesNickname(info).value
    ensures ProfileNickname(info).None? && PropertiesNickname(info).None? ==> r == UnknownNickname
  {
    if info.kakaoAccount.Some? && info.kakaoAccount.value.profile.Some?
       && info.kakaoAccount.value.profile.value.nickname.Some? then
      info.kakaoAccount.value.profile.value.nickname.value
    else if info.properties.Some? && info.properties.value.nickname.Some? then
      info.properties.value.nickname.value
    else UnknownNickname
  }

  /** The profile's image URL, when every record on the way is present. */
  function ProfileImage(info: KakaoUserInfo): Option<string>
  {
    if info.kakaoAccount.Some? && info.kakaoAccount.value.profile.Some? then info.kakaoAccount.value.profile.value.profileImageUrl
    else None
  }

  /** The properties' image, when the properties are present. */
  function PropertiesImage(info: KakaoUserInfo): Option<string>
  {
    if info.properties.Some? then info.properties.value.profileImage else None
  }

  /**
   * getProfileImageUrl: the profile's image URL wins over the properties'
   * image; null when neither is present.
   */
  function GetProfileImageUrl(info: KakaoUserInfo): (r: Option<string>)
    ensures ProfileImage(info).Some? ==> r == ProfileImage(info)
    ensures ProfileImage(info).None? ==> r == PropertiesImage(info)
    ensures r.Some? <==> ProfileImage(info).Some? || PropertiesImage(info).Some?
  {
    if info.kakaoAccount.Some? && info.kakaoAccount.value.profile.Some?
       && info.kakaoAccount.value.profile.value.profileImageUrl.Some? then
      info.kakaoAccount.value.profile.value.profileImageUrl
    else if info.properties.Some? && info.properties.value.profileImage.Some? then
      info.properties.value.profileImage
    else None
  }

  /**
   * The nickname and the image fall back independently: a profile with an
   * image but no nickname still yields its image, while the nickname comes
   * from the properties.
   */
  lemma FallbacksAreIndependent(name: string, url: string, image: string)
    ensures var info := KakaoUserInfo(None, None,
                          Some(KakaoAccount(None, Some(Profile(None, None, Some(url), None)), None, None, None, None, None)),
                          Some(Properties(Some(name), Some(image), None)));
            && GetNickname(info) == name && GetProfileImageUrl(info) == Some(url) && GetEmail(info) == None
  {
  }
}
