/**
 * The SDK configuration provider and the factory that builds it. The
 * provider is an immutable record; each getter returns the argument that
 * was captured when it was built.
 */
module ConfigurationFactory {
  import opened Wrappers

  /** The three ways of logging in to the server. */
  datatype LoginType = Credentials | SSO | SAML

  /** A server address, kept opaque: no parsing of its text is modelled. */
  datatype Url = Url(text: string)

  /**
   * The provider. A null server URL or login type is `None`; the factory
   * passes both through without checking them.
   */
  datatype SdkConfigurationProvider = SdkConfigurationProvider(
    cxOriginName: string,
    cxServerUrl: Option<Url>,
    loginType: Option<LoginType>,
    username: string,
    password: string,
    useKerberosAuthentication: bool)

  /** The anonymous provider: every getter answers with the captured argument. */
  function InitSdkConfigurationProvider(
    serverUrl: Option<Url>, cxOrigin: string, loginType: Option<LoginType>,
    username: string, password: string, useKerberosAuthentication: bool): (p: SdkConfigurationProvider)
    ensures p.cxServerUrl == serverUrl && p.cxOriginName == cxOrigin
    ensures p.loginType == loginType
    ensures p.username == username && p.password == password
    ensures p.useKerberosAuthentication == useKerberosAuthentication
  {
    SdkConfigurationProvider(cxOrigin, serverUrl, loginType, username, password, useKerberosAuthentication)
  }

  /** The six-argument `create`: no validation, the Kerberos flag is exposed as given. */
  function CreateWithKerberos(
    serverUrl: Option<Url>, cxOrigin: string, loginType: Option<LoginType>,
    username: string, password: string, useKerberosAuthentication: bool): (p: SdkConfigurationProvider)
    ensures p.cxServerUrl == serverUrl && p.cxOriginName == cxOrigin && p.loginType == loginType
    ensures p.username == username && p.password == password
    ensures p.useKerberosAuthentication == useKerberosAuthentication
  {
    InitSdkConfigurationProvider(serverUrl, cxOrigin, loginType, username, password, useKerberosAuthentication)
  }

  /** The five-argument `create`: the six-argument one with Kerberos switched off. */
  function Create(
    serverUrl: Option<Url>, cxOrigin: string, loginType: Option<LoginType>,
    username: string, password: string): (p: SdkConfigurationProvider)
    ensures p == CreateWithKerberos(serverUrl, cxOrigin, loginType, username, password, false)
    ensures !p.useKerberosAuthentication
  {
    InitSdkConfigurationProvider(serverUrl, cxOrigin, loginType, username, password, false)
  }

  /** The getters give back every argument, so two providers built from different arguments differ. */
  lemma CreateWithKerberosInjective(
    url1: Option<Url>, origin1: string, type1: Option<LoginType>, user1: string, password1: string, kerberos1: bool,
    url2: Option<Url>, origin2: string, type2: Option<LoginType>, user2: string, password2: string, kerberos2: bool)
    requires CreateWithKerberos(url1, origin1, type1, user1, password1, kerberos1)
          == CreateWithKerberos(url2, origin2, type2, user2, password2, kerberos2)
    ensures url1 == url2 && origin1 == origin2 && type1 == type2
    ensures user1 == user2 && password1 == password2 && kerberos1 == kerberos2
  {
  }
}
