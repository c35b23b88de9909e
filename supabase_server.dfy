/**
 * The server-side backend client factory. It uses the same configuration
 * check as the browser factory; its placeholder client has only `getUser`,
 * the table chains and storage, so every other auth call on it throws.
 */
module SupabaseServer {
  import opened Common
  import opened SupabaseClient

  datatype ServerClient = ServerPlaceholder | CookieClient(url: string, key: string)

  /** `createClient` on the server: the placeholder when not configured, or
      when reading the cookie store or constructing the client throws. */
  function CreateServerClient(url: Option<string>, key: Option<string>, cookiesThrow: bool, constructionThrows: bool)
    : (c: ServerClient)
    ensures c.CookieClient? <==> IsConfigured(url, key) && !cookiesThrow && !constructionThrows
    ensures c.CookieClient? ==> c.url == url.value && c.key == key.value
  {
    if !IsConfigured(url, key) then ServerPlaceholder
    else if cookiesThrow || constructionThrows then ServerPlaceholder
    else CookieClient(url.value, key.value)
  }

  /** The server placeholder's answer: of the auth methods it has only
      `getUser`, so every other auth call throws; its tables and storage
      are the browser placeholder's. */
  function ServerPlaceholderAnswer(call: Call): (a: Answer)
    ensures call.AuthCall? ==> (a.Throws? <==> call.name != GetUser)
    ensures call == AuthCall(GetUser) ==> a == UserAnswer(None, None)
    ensures call.Query? ==> a == PlaceholderQuery(call.steps)
    ensures call.Upload? ==> a == ErrorAnswer(Some(NotConfigured))
    ensures call.GetPublicUrl? ==> a == UrlAnswer("")
  {
    match call
    case AuthCall(m) => if m == GetUser then UserAnswer(None, None) else Throws
    case Query(_, steps) => PlaceholderQuery(steps)
    case Upload(_, _) => ErrorAnswer(Some(NotConfigured))
    case GetPublicUrl(_, _) => UrlAnswer("")
  }

  /** Where the server placeholder answers, it answers as the browser
      placeholder does; it throws on everything the browser one throws on,
      and on signing in, signing up, signing out and subscribing besides. */
  lemma PlaceholdersAgree(call: Call)
    ensures !ServerPlaceholderAnswer(call).Throws? ==> ServerPlaceholderAnswer(call) == PlaceholderAnswer(call)
    ensures PlaceholderAnswer(call).Throws? ==> ServerPlaceholderAnswer(call).Throws?
    ensures ServerPlaceholderAnswer(call).Throws? && !PlaceholderAnswer(call).Throws? <==>
      call.AuthCall? && call.name in {SignInWithPassword, SignUp, SignOut, OnAuthStateChange}
  {
  }

  /** Both factories hand out a real client under the same configuration. */
  lemma FactoriesAgree(url: Option<string>, key: Option<string>)
    ensures CreateServerClient(url, key, false, false).CookieClient? <==> CreateClient(url, key, false).BrowserClient?
  {
  }
}
