/**
 * The setup page's configuration check, and how it relates to the checks
 * the client factories and the home page use.
 */
module SetupPage {
  import opened Common
  import SupabaseClient
  import HomePage

  const UrlVar := "NEXT_PUBLIC_SUPABASE_URL"
  const KeyVar := "NEXT_PUBLIC_SUPABASE_ANON_KEY"

  /** `checkEnvVar(name)` for the value the variable holds: set, free of both
      placeholders, and an https URL when the name mentions 'URL', otherwise
      longer than 20 characters. */
  function CheckEnvVar(name: string, value: Option<string>): (r: bool)
    ensures value.None? ==> !r
    ensures r ==> |value.value| >= 8
    ensures r && Contains(name, "URL") ==> StartsWith(value.value, "https://")
  {
    Truthy(value) && !Contains(value.value, "your-project") && !Contains(value.value, "your-key") &&
    (if Contains(name, "URL") then StartsWith(value.value, "https://") else |value.value| > 20)
  }

  /** `isConfigured = hasUrl && hasKey`. */
  function SetupConfigured(url: Option<string>, key: Option<string>): (r: bool)
    ensures r ==> url.Some? && StartsWith(url.value, "https://")
    ensures r ==> key.Some? && |key.value| > 20
  {
    VarNames();
    CheckEnvVar(UrlVar, url) && CheckEnvVar(KeyVar, key)
  }

  lemma VarNames()
    ensures Contains(UrlVar, "URL") && !Contains(KeyVar, "URL")
  {
    UrlVarHoldsUrl();
    KeyVarLacksR();
    assert 'R' in "URL";
    NotContainsChar(KeyVar, "URL", 'R');
  }

  lemma UrlVarHoldsUrl()
    ensures Contains(UrlVar, "URL")
  {
    assert UrlVar[21..24] == "URL";
    ContainsAt(UrlVar, "URL", 21);
  }

  lemma KeyVarLacksR()
    ensures 'R' !in KeyVar
  {
    var a, b := "NEXT_PUBLIC_", "SUPABASE_ANON_KEY";
    assert 'R' !in a;
    assert 'R' !in b;
    assert KeyVar == a + b;
  }

  /** The setup check is what the setup page says it is. */
  lemma SetupConfiguredIff(url: Option<string>, key: Option<string>)
    ensures SetupConfigured(url, key) <==>
      Truthy(url) && Truthy(key) &&
      !Contains(url.value, "your-project") && !Contains(url.value, "your-key") && StartsWith(url.value, "https://") &&
      !Contains(key.value, "your-project") && !Contains(key.value, "your-key") && |key.value| > 20
  {
    VarNames();
  }

  /** A configuration the setup page accepts is one the client factories accept ... */
  lemma SetupImpliesClient(url: Option<string>, key: Option<string>)
    requires SetupConfigured(url, key)
    ensures SupabaseClient.IsConfigured(url, key)
  {
    SetupConfiguredIff(url, key);
  }

  /** ... and one the client factories accept the home page accepts. */
  lemma ClientImpliesHomePage(url: Option<string>, key: Option<string>)
    requires SupabaseClient.IsConfigured(url, key)
    ensures HomePage.IsSupabaseConfigured(url, key)
  {
  }

  const PlaceholderUrl := "https://your-key.example.co"
  const LongKey := "abcdefghijklmnopqrstuvwxyz"

  lemma PlaceholderUrlFacts()
    ensures Contains(PlaceholderUrl, "your-key") && !Contains(PlaceholderUrl, "your-project")
    ensures StartsWith(PlaceholderUrl, "https://")
  {
    PlaceholderUrlHoldsKey();
    PlaceholderUrlLacksProject();
    assert PlaceholderUrl[..8] == "https://";
  }

  lemma PlaceholderUrlHoldsKey()
    ensures Contains(PlaceholderUrl, "your-key")
  {
    assert PlaceholderUrl[8..16] == "your-key";
    ContainsAt(PlaceholderUrl, "your-key", 8);
  }

  lemma PlaceholderUrlLacksProject()
    ensures !Contains(PlaceholderUrl, "your-project")
  {
    assert 'j' in "your-project";
    NotContainsChar(PlaceholderUrl, "your-project", 'j');
  }

  lemma LongKeyFacts()
    ensures !Contains(LongKey, "your-key") && !Contains(LongKey, "your-project") && |LongKey| > 20
  {
    NotContainsChar(LongKey, "your-key", '-');
    NotContainsChar(LongKey, "your-project", '-');
  }

  /** The converse fails: the setup page also rejects a URL holding 'your-key'. */
  lemma ClientAcceptsWhatSetupRejects()
    ensures SupabaseClient.IsConfigured(Some(PlaceholderUrl), Some(LongKey))
    ensures !SetupConfigured(Some(PlaceholderUrl), Some(LongKey))
  {
    PlaceholderUrlFacts();
    LongKeyFacts();
    SetupConfiguredIff(Some(PlaceholderUrl), Some(LongKey));
  }

  /** Nor does the other converse: the home page also accepts an http URL and a short key. */
  lemma HomePageAcceptsWhatClientRejects()
    ensures HomePage.IsSupabaseConfigured(Some("http://example.co"), Some("k"))
    ensures !SupabaseClient.IsConfigured(Some("http://example.co"), Some("k"))
  {
    NotContainsChar("http://example.co", "your-project", 'j');
    NotContainsChar("k", "your-key", '-');
  }
}
