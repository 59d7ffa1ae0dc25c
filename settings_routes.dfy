/** The settings endpoints (routes/settings.js): reads with defaults and a
    masked secret, and saves that write fixed keys one after another and
    then re-read the settings into the services. */
module SettingsRoutes {
  import opened Wrappers
  import opened Text
  import opened Store
  import opened JiraClient
  import opened LlmProvider

  const Mask := "***"

  // ----------------------------------------------------------------- Jira

  /** The body of `GET /jira`, and of the matching `POST /jira`. */
  datatype JiraView = JiraView(baseUrl: string, username: string, apiToken: string)

  /** `GET /jira`: the stored base URL and user name, "" when absent, and
      never the token. */
  function GetJira(settings: map<string, string>): (v: JiraView)
    ensures v.apiToken == Mask
    ensures JiraBaseUrlKey in settings ==> v.baseUrl == settings[JiraBaseUrlKey]
    ensures JiraBaseUrlKey !in settings ==> v.baseUrl == ""
    ensures JiraUsernameKey in settings ==> v.username == settings[JiraUsernameKey]
    ensures JiraUsernameKey !in settings ==> v.username == ""
  {
    JiraView(Setting(settings, JiraBaseUrlKey), Setting(settings, JiraUsernameKey), Mask)
  }

  /** A `POST /jira` body; a field left out is `None`. */
  datatype JiraBody = JiraBody(baseUrl: Option<string>, username: Option<string>, apiToken: Option<string>)

  /** The reply of a save: 200 with its message, or 500 carrying the
      database's error (its text is not modelled). */
  datatype SaveReply = Saved(message: string) | SaveFailed

  /** The settings after the three writes of `POST /jira`: each write
      happens only if the ones before it succeeded, and a missing value
      makes its own write fail (the `value` column is `NOT NULL`). */
  function JiraWrites(settings: map<string, string>, body: JiraBody): map<string, string> {
    if body.baseUrl.None? then settings
    else
      var s1 := settings[JiraBaseUrlKey := body.baseUrl.value];
      if body.username.None? then s1
      else
        var s2 := s1[JiraUsernameKey := body.username.value];
        if body.apiToken.None? then s2
        else s2[JiraApiTokenKey := body.apiToken.value]
  }

  predicate JiraBodyComplete(body: JiraBody) {
    body.baseUrl.Some? && body.username.Some? && body.apiToken.Some?
  }

  /** `POST /jira`. On success the Jira client is built again from the
      new settings; on a failed write it is not. */
  method SaveJira(db: Database, jira: JiraClientService, body: JiraBody) returns (reply: SaveReply)
    modifies db, jira
    ensures db.settings == JiraWrites(old(db.settings), body)
    ensures db.templates == old(db.templates) && db.testPlans == old(db.testPlans)
    ensures reply == if JiraBodyComplete(body) then Saved("JIRA settings saved") else SaveFailed
    ensures JiraBodyComplete(body) ==> jira.client == Some(ConfigOf(db.settings))
    ensures !JiraBodyComplete(body) ==> jira.client == old(jira.client)
  {
    var ok := db.PutSetting(JiraBaseUrlKey, body.baseUrl);
    if !ok {
      return SaveFailed;
    }
    ok := db.PutSetting(JiraUsernameKey, body.username);
    if !ok {
      return SaveFailed;
    }
    ok := db.PutSetting(JiraApiTokenKey, body.apiToken);
    if !ok {
      return SaveFailed;
    }
    jira.InitializeClient(db.settings);
    reply := Saved("JIRA settings saved");
  }

  /** A save writes the three Jira keys and leaves every other key as it
      was. */
  lemma JiraWritesOnlyJiraKeys(settings: map<string, string>, body: JiraBody, k: string)
    requires k != JiraBaseUrlKey && k != JiraUsernameKey && k != JiraApiTokenKey
    ensures k in JiraWrites(settings, body) <==> k in settings
    ensures k in settings ==> JiraWrites(settings, body)[k] == settings[k]
  {
  }

  /** A complete save is read back by `GET /jira`, with the token masked. */
  lemma SaveThenGetJira(settings: map<string, string>, u: string, n: string, t: string)
    ensures GetJira(JiraWrites(settings, JiraBody(Some(u), Some(n), Some(t)))) == JiraView(u, n, Mask)
  {
  }

  /** A failed write leaves the earlier ones in place: with the token left
      out, the URL and user name are still replaced. */
  lemma PartialJiraSave(settings: map<string, string>, u: string, n: string)
    ensures JiraWrites(settings, JiraBody(Some(u), Some(n), None)) ==
      settings[JiraBaseUrlKey := u][JiraUsernameKey := n]
  {
  }

  /** The settings page loads `GET /jira` into its form and saves the form
      as it is: without editing the token field, the stored token is
      replaced by the mask. */
  lemma ReloadedFormStoresMask(settings: map<string, string>)
    ensures var v := GetJira(settings);
      var after := JiraWrites(settings, JiraBody(Some(v.baseUrl), Some(v.username), Some(v.apiToken)));
      after[JiraApiTokenKey] == Mask &&
      GetJira(after) == v
  {
  }

  // ------------------------------------------------------------------ LLM

  /** The body of `GET /llm`. The temperature is kept as the stored text;
      the number it is parsed into is not modelled. */
  datatype LlmView = LlmView(
    provider: string,
    groqApiKey: string,
    groqModel: string,
    groqTemperature: string,
    ollamaBaseUrl: string,
    ollamaModel: string)

  /** `GET /llm`: each setting, or its default when absent or empty; the
      Groq key is never shown. */
  function GetLlm(settings: map<string, string>): (v: LlmView)
    ensures v.groqApiKey == Mask
    ensures v.provider == OrElse(Setting(settings, LlmProviderKey), "groq")
    ensures v.groqModel == OrElse(Setting(settings, GroqModelKey), GroqDefaultModel)
    ensures v.groqTemperature == OrElse(Setting(settings, GroqTemperatureKey), "0.7")
    ensures v.ollamaBaseUrl == OrElse(Setting(settings, OllamaBaseUrlKey), "http://localhost:11434")
    ensures v.ollamaModel == OrElse(Setting(settings, OllamaModelKey), OllamaDefaultModel)
  {
    LlmView(
      OrElse(Setting(settings, LlmProviderKey), "groq"),
      Mask,
      OrElse(Setting(settings, GroqModelKey), GroqDefaultModel),
      OrElse(Setting(settings, GroqTemperatureKey), "0.7"),
      OrElse(Setting(settings, OllamaBaseUrlKey), "http://localhost:11434"),
      OrElse(Setting(settings, OllamaModelKey), OllamaDefaultModel))
  }

  /** With nothing stored, every field shows its default. */
  lemma GetLlmDefaults()
    ensures GetLlm(map[]) == LlmView("groq", Mask, GroqDefaultModel, "0.7", "http://localhost:11434", OllamaDefaultModel)
  {
  }

  /** The `groq` part of a `POST /llm` body; `temperature` is the text
      its number converts to, `None` when it is missing. */
  datatype GroqBody = GroqBody(apiKey: Option<string>, model: Option<string>, temperature: Option<string>)
  datatype OllamaBody = OllamaBody(baseUrl: Option<string>, model: Option<string>)
  datatype LlmBody = LlmBody(provider: Option<string>, groq: Option<GroqBody>, ollama: Option<OllamaBody>)

  /** The writes of `POST /llm` in order: the provider always, the three
      Groq keys when a `groq` part is sent, the two Ollama keys when an
      `ollama` part is sent. The first write that lacks its value fails
      and stops the rest. */
  function LlmWrites(body: LlmBody): seq<(string, Option<string>)> {
    [(LlmProviderKey, body.provider)] +
    (if body.groq.Some? then
       [(GroqApiKeyKey, body.groq.value.apiKey), (GroqModelKey, body.groq.value.model),
        (GroqTemperatureKey, body.groq.value.temperature)]
     else []) +
    (if body.ollama.Some? then
       [(OllamaBaseUrlKey, body.ollama.value.baseUrl), (OllamaModelKey, body.ollama.value.model)]
     else [])
  }

  /** Applies writes until one fails; also says whether all succeeded. */
  function ApplyWrites(settings: map<string, string>, ws: seq<(string, Option<string>)>): (map<string, string>, bool)
    decreases |ws|
  {
    if |ws| == 0 then (settings, true)
    else if ws[0].1.None? then (settings, false)
    else ApplyWrites(settings[ws[0].0 := ws[0].1.value], ws[1..])
  }

  /** The keys a write list may touch. */
  function WrittenKeys(ws: seq<(string, Option<string>)>): set<string> {
    set i | 0 <= i < |ws| :: ws[i].0
  }

  /** Applying writes changes no key outside the list. */
  lemma {:induction false} ApplyWritesFrame(settings: map<string, string>, ws: seq<(string, Option<string>)>, k: string)
    requires k !in WrittenKeys(ws)
    ensures k in ApplyWrites(settings, ws).0 <==> k in settings
    ensures k in settings ==> ApplyWrites(settings, ws).0[k] == settings[k]
    decreases |ws|
  {
    if |ws| > 0 && ws[0].1.Some? {
      assert k != ws[0].0 by { assert ws[0].0 in WrittenKeys(ws); }
      assert WrittenKeys(ws[1..]) <= WrittenKeys(ws) by {
        forall x | x in WrittenKeys(ws[1..]) ensures x in WrittenKeys(ws) {
          var i :| 0 <= i < |ws[1..]| && ws[1..][i].0 == x;
          assert ws[i + 1].0 == x;
        }
      }
      ApplyWritesFrame(settings[ws[0].0 := ws[0].1.value], ws[1..], k);
    }
  }

  /** All writes succeed exactly when every value is present. */
  lemma {:induction false} ApplyWritesOk(settings: map<string, string>, ws: seq<(string, Option<string>)>)
    ensures ApplyWrites(settings, ws).1 <==> forall i :: 0 <= i < |ws| ==> ws[i].1.Some?
    decreases |ws|
  {
    if |ws| > 0 && ws[0].1.Some? {
      ApplyWritesOk(settings[ws[0].0 := ws[0].1.value], ws[1..]);
      assert forall i :: 1 <= i < |ws| ==> ws[i] == ws[1..][i - 1];
    }
  }

  /** `POST /llm` writes the provider, the Groq keys only with a `groq`
      part and the Ollama keys only with an `ollama` part; nothing else. */
  lemma LlmWritesOnlyListedKeys(settings: map<string, string>, body: LlmBody, k: string)
    requires k != LlmProviderKey
    requires body.groq.None? || (k != GroqApiKeyKey && k != GroqModelKey && k != GroqTemperatureKey)
    requires body.ollama.None? || (k != OllamaBaseUrlKey && k != OllamaModelKey)
    ensures k in ApplyWrites(settings, LlmWrites(body)).0 <==> k in settings
    ensures k in settings ==> ApplyWrites(settings, LlmWrites(body)).0[k] == settings[k]
  {
    var ws := LlmWrites(body);
    assert forall i :: 0 <= i < |ws| ==> ws[i].0 != k;
    ApplyWritesFrame(settings, ws, k);
  }

  /** `POST /llm`. On success the providers are set up again from the new
      settings; on a failed write they are not. */
  method SaveLlm(db: Database, llm: LlmProviderService, body: LlmBody) returns (reply: SaveReply)
    modifies db, llm
    ensures db.settings == ApplyWrites(old(db.settings), LlmWrites(body)).0
    ensures db.templates == old(db.templates) && db.testPlans == old(db.testPlans)
    ensures reply == if ApplyWrites(old(db.settings), LlmWrites(body)).1 then Saved("LLM settings saved") else SaveFailed
    ensures reply.Saved? ==> llm.groqKey == (if GroqApiKeyKey in db.settings then Some(db.settings[GroqApiKeyKey]) else old(llm.groqKey))
    ensures reply.Saved? ==>
      llm.ollamaBaseUrl == (if OllamaBaseUrlKey in db.settings then db.settings[OllamaBaseUrlKey] else old(llm.ollamaBaseUrl))
    ensures reply.SaveFailed? ==> llm.groqKey == old(llm.groqKey) && llm.ollamaBaseUrl == old(llm.ollamaBaseUrl)
  {
    var ws := LlmWrites(body);
    var i := 0;
    while i < |ws|
      invariant 0 <= i <= |ws|
      invariant ApplyWrites(old(db.settings), ws) == ApplyWrites(db.settings, ws[i..])
      invariant db.templates == old(db.templates) && db.testPlans == old(db.testPlans)
      invariant llm.groqKey == old(llm.groqKey) && llm.ollamaBaseUrl == old(llm.ollamaBaseUrl)
    {
      assert ws[i..][0] == ws[i] && ws[i..][1..] == ws[i + 1..];
      var ok := db.PutSetting(ws[i].0, ws[i].1);
      if !ok {
        return SaveFailed;
      }
      i := i + 1;
    }
    assert ws[i..] == [];
    llm.InitializeProviders(db.settings);
    reply := Saved("LLM settings saved");
  }

  /** A Groq-only save followed by `GET /llm` shows the provider and the
      Groq model sent, the key masked, and the stored temperature text. */
  lemma SaveThenGetLlm(settings: map<string, string>, p: string, key: string, m: string, temp: string)
    requires p != "" && m != "" && temp != ""
    ensures var after := ApplyWrites(settings, LlmWrites(LlmBody(Some(p), Some(GroqBody(Some(key), Some(m), Some(temp))), None)));
      after.1 &&
      GetLlm(after.0).provider == p && GetLlm(after.0).groqModel == m &&
      GetLlm(after.0).groqTemperature == temp && GetLlm(after.0).groqApiKey == Mask
  {
    var ws := LlmWrites(LlmBody(Some(p), Some(GroqBody(Some(key), Some(m), Some(temp))), None));
    assert ws == [(LlmProviderKey, Some(p)), (GroqApiKeyKey, Some(key)), (GroqModelKey, Some(m)), (GroqTemperatureKey, Some(temp))];
    var s1 := settings[LlmProviderKey := p];
    var s2 := s1[GroqApiKeyKey := key];
    var s3 := s2[GroqModelKey := m];
    var s4 := s3[GroqTemperatureKey := temp];
    var w1 := ws[1..];
    var w2 := w1[1..];
    var w3 := w2[1..];
    assert w3 == [(GroqTemperatureKey, Some(temp))] && w3[1..] == [];
    assert ApplyWrites(s3, w3) == (s4, true);
    assert ApplyWrites(s2, w2) == (s4, true);
    assert ApplyWrites(s1, w1) == (s4, true);
    assert ApplyWrites(settings, ws) == (s4, true);
  }
}
