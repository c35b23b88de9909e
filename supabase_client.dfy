/**
 * The browser-side backend client factory: a real client only when the
 * environment holds a usable project URL and anonymous key, otherwise (or
 * when construction throws) a placeholder client. The placeholder answers
 * the few auth methods and query chains it defines without a user or data;
 * any other method or longer chain is missing on it, so calling it throws.
 */
module SupabaseClient {
  import opened Common
  import opened Types

  /** The configuration check: both values set, no placeholder text, an
      https URL and a key longer than 20 characters. */
  function IsConfigured(url: Option<string>, key: Option<string>): (r: bool)
    ensures r ==> url.Some? && key.Some? && |url.value| >= 8 && |key.value| > 20
  {
    Truthy(url) && Truthy(key) &&
    !Contains(url.value, "your-project") && !Contains(key.value, "your-key") &&
    StartsWith(url.value, "https://") && |key.value| > 20
  }

  datatype Client = PlaceholderClient | BrowserClient(url: string, key: string)

  /** `createClient`: the real client when configured and its construction
      does not throw; the placeholder otherwise. */
  function CreateClient(url: Option<string>, key: Option<string>, constructionThrows: bool): (c: Client)
    ensures c.BrowserClient? <==> IsConfigured(url, key) && !constructionThrows
    ensures c.BrowserClient? ==> c.url == url.value && c.key == key.value
  {
    if !IsConfigured(url, key) then PlaceholderClient
    else if constructionThrows then PlaceholderClient
    else BrowserClient(url.value, key.value)
  }

  /** The auth methods the application calls. */
  datatype AuthMethod =
    | GetUser | GetSession | SignInWithPassword | SignUp | SignOut
    | OnAuthStateChange | UpdateUser | ExchangeCodeForSession

  /** One link of a query built on `from(table)`. */
  datatype Step = Select | Insert | Update | Delete | Eq | Or | Order | Limit | Range | Single

  /** A call on a client: an auth method, a query chain on a table (awaited
      after its last step), or a storage call. */
  datatype Call =
    | AuthCall(name: AuthMethod)
    | Query(table: string, steps: seq<Step>)
    | Upload(bucket: string, path: string)
    | GetPublicUrl(bucket: string, path: string)

  /** What a call answers: a user with an optional error, an optional error,
      rows with an optional error, a builder object awaited before its end
      (neither data nor error), a public URL, a subscription, or a throw
      (a method the object does not have). */
  datatype Answer =
    | UserAnswer(user: Option<User>, error: Option<string>)
    | ErrorAnswer(error: Option<string>)
    | DataAnswer(data: Option<seq<Listing>>, error: Option<string>)
    | NoFields
    | UrlAnswer(publicUrl: string)
    | Subscription
    | Throws

  const NotConfigured := "Supabase not configured"

  /** The chains the placeholder's `from()` object defines, each ending in
      `{ data: null, error: { message: 'Supabase not configured' } }`. */
  const PlaceholderChains: seq<seq<Step>> :=
    [[Select, Eq], [Select, Order, Limit], [Insert, Select, Single], [Update, Eq], [Delete, Eq]]

  predicate IsPrefix(a: seq<Step>, b: seq<Step>) {
    |a| <= |b| && b[..|a|] == a
  }

  /** The placeholder's answer to a query chain: the "not configured" reply
      at the end of a defined chain, a bare builder object part-way along
      one, and a throw once a step leaves every defined chain. */
  function PlaceholderQuery(steps: seq<Step>): (a: Answer)
    ensures a.DataAnswer? <==> steps in PlaceholderChains
    ensures a.Throws? <==> forall c | c in PlaceholderChains :: !IsPrefix(steps, c)
    ensures a.DataAnswer? ==> a == DataAnswer(None, Some(NotConfigured))
  {
    if steps in PlaceholderChains then DataAnswer(None, Some(NotConfigured))
    else if exists c | c in PlaceholderChains :: IsPrefix(steps, c) then NoFields
    else Throws
  }

  /** The placeholder client's answer to each call. Unsubscribing from its
      subscription does nothing. */
  function PlaceholderAnswer(call: Call): (a: Answer)
    ensures call == AuthCall(GetUser) ==> a == UserAnswer(None, None)
    ensures call == AuthCall(SignInWithPassword) || call == AuthCall(SignUp) ==> a == UserAnswer(None, Some(NotConfigured))
    ensures call == AuthCall(SignOut) ==> a == ErrorAnswer(None)
    ensures call == AuthCall(OnAuthStateChange) ==> a.Subscription?
    ensures call.AuthCall? ==> (a.Throws? <==> call.name in {GetSession, UpdateUser, ExchangeCodeForSession})
    ensures call.Query? ==> a == PlaceholderQuery(call.steps)
  {
    match call
    case AuthCall(m) =>
      (match m
       case GetUser => UserAnswer(None, None)
       case SignInWithPassword => UserAnswer(None, Some(NotConfigured))
       case SignUp => UserAnswer(None, Some(NotConfigured))
       case SignOut => ErrorAnswer(None)
       case OnAuthStateChange => Subscription
       case _ => Throws)
    case Query(_, steps) => PlaceholderQuery(steps)
    case Upload(_, _) => ErrorAnswer(Some(NotConfigured))
    case GetPublicUrl(_, _) => UrlAnswer("")
  }

  /** The placeholder never yields a user and never yields rows. */
  lemma PlaceholderHasNoUserOrData(call: Call)
    ensures PlaceholderAnswer(call).UserAnswer? ==> PlaceholderAnswer(call).user.None?
    ensures PlaceholderAnswer(call).DataAnswer? ==>
      PlaceholderAnswer(call).data.None? && PlaceholderAnswer(call).error == Some(NotConfigured)
    ensures call.Upload? ==> PlaceholderAnswer(call) == ErrorAnswer(Some(NotConfigured))
    ensures call.GetPublicUrl? ==> PlaceholderAnswer(call) == UrlAnswer("")
  {
  }

  /** A chain one step past the end of a defined chain throws: the reply
      object has no further methods. */
  lemma PastReplyThrows(c: seq<Step>, s: Step)
    requires c in PlaceholderChains
    ensures PlaceholderQuery(c + [s]).Throws?
  {
    forall d | d in PlaceholderChains ensures !IsPrefix(c + [s], d) {
      ChainsPrefixFree(c, d);
      if |c + [s]| <= |d| {
        assert d[..|c|] == d[..|c + [s]|][..|c|];
        assert (c + [s])[..|c|] == c;
      }
    }
  }

  /** No defined chain continues another. */
  lemma ChainsPrefixFree(c: seq<Step>, d: seq<Step>)
    requires c in PlaceholderChains && d in PlaceholderChains
    ensures IsPrefix(c, d) ==> c == d
  {
    var cs := PlaceholderChains;
    assert forall i, j :: 0 <= i < |cs| && 0 <= j < |cs| && cs[i][0] == cs[j][0] && cs[i][1] == cs[j][1] ==> i == j;
    if IsPrefix(c, d) {
      assert c[0] == d[0] && c[1] == d[1];
    }
  }

  /** Any chain that goes on past the end of a defined chain throws. */
  lemma {:induction false} ExtensionThrows(c: seq<Step>, rest: seq<Step>)
    requires c in PlaceholderChains && rest != []
    ensures PlaceholderQuery(c + rest).Throws?
  {
    forall d | d in PlaceholderChains ensures !IsPrefix(c + rest, d) {
      ChainsPrefixFree(c, d);
      if |c + rest| <= |d| {
        assert d[..|c|] == d[..|c + rest|][..|c|];
        assert (c + rest)[..|c|] == c;
      }
    }
  }

  /** What the application's own chains get from the placeholder: the
      profile and listing inserts and the listing update answer "not
      configured"; the profile fetch and update (which end in `single()`),
      the featured toggle (a second `eq`), the dashboard and advertisement
      queries (an `order` after `eq`) and the home page's query (a `range`
      after `order`) throw. */
  lemma ApplicationChainsOnPlaceholder()
    ensures PlaceholderQuery([Insert, Select, Single]) == DataAnswer(None, Some(NotConfigured))
    ensures PlaceholderQuery([Update, Eq]) == DataAnswer(None, Some(NotConfigured))
    ensures PlaceholderQuery([Select, Eq, Single]).Throws?
    ensures PlaceholderQuery([Update, Eq, Select, Single]).Throws?
    ensures PlaceholderQuery([Update, Eq, Eq]).Throws?
    ensures PlaceholderQuery([Select, Eq, Order]).Throws?
    ensures PlaceholderQuery([Select, Order, Range]).Throws?
  {
    ExtensionThrows([Select, Eq], [Single]);
    assert [Select, Eq] + [Single] == [Select, Eq, Single];
    ExtensionThrows([Update, Eq], [Select, Single]);
    assert [Update, Eq] + [Select, Single] == [Update, Eq, Select, Single];
    ExtensionThrows([Update, Eq], [Eq]);
    assert [Update, Eq] + [Eq] == [Update, Eq, Eq];
    ExtensionThrows([Select, Eq], [Order]);
    assert [Select, Eq] + [Order] == [Select, Eq, Order];
    var r := [Select, Order, Range];
    forall d | d in PlaceholderChains ensures !IsPrefix(r, d) {
      if |r| <= |d| {
        assert d[2] != Range;
        assert d[..|r|][2] == d[2];
      }
    }
  }
}
