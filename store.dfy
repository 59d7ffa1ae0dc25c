/** The SQLite tables the backend core reads and writes, as in-memory
    values: `settings` keyed by its primary key `key`, `templates` keyed by
    `id`, and the append-only `test_plans` rows. */
module Store {
  import opened Wrappers

  /** One entry of a template's `sections` column (stored as JSON). */
  datatype Section = Section(title: string, content: string)

  /** A template object as the services see it. `rawText` is read by the
      section resolver but no code path ever sets it; "" stands for
      `undefined`. */
  datatype Template = Template(
    id: string,
    name: string,
    filename: string,
    content: string,
    rawText: string,
    sections: seq<Section>)

  /** The generation metadata kept with a test plan (the elapsed time is
      not modelled). */
  datatype PlanMetadata = PlanMetadata(provider: string, modelUsed: string, tokensUsed: nat)

  /** A row of `test_plans`; "" stands for a missing template id. */
  datatype PlanRow = PlanRow(
    id: string,
    ticketId: string,
    templateId: string,
    content: string,
    metadata: PlanMetadata)

  /** The ticket record `fetchTicket` returns and stores. Its `labels`
      are kept as the list that the source writes out as JSON text. */
  datatype Ticket = Ticket(
    id: string,
    key: string,
    summary: string,
    description: string,
    priority: string,
    status: string,
    assignee: string,
    labels: seq<string>,
    acceptanceCriteria: string)

  // Keys of the `settings` table used by the backend.
  const JiraBaseUrlKey := "jira_base_url"
  const JiraUsernameKey := "jira_username"
  const JiraApiTokenKey := "jira_api_token"
  const LlmProviderKey := "llm_provider"
  const GroqApiKeyKey := "groq_api_key"
  const GroqModelKey := "groq_model"
  const GroqTemperatureKey := "groq_temperature"
  const OllamaBaseUrlKey := "ollama_base_url"
  const OllamaModelKey := "ollama_model"

  /** `row?.value` for a `SELECT value FROM settings WHERE key = ?`: callers
      only test it for truthiness, so a missing row reads as "". */
  function Setting(settings: map<string, string>, key: string): (v: string)
    ensures key !in settings ==> v == ""
    ensures key in settings ==> v == settings[key]
  {
    if key in settings then settings[key] else ""
  }

  /** After a row is written, reading its key gives the value written and
      reading any other key gives what it gave before. */
  lemma SettingAfterWrite(settings: map<string, string>, key: string, value: string, k: string)
    ensures Setting(settings[key := value], k) == if k == key then value else Setting(settings, k)
  {
  }

  class Database {
    var settings: map<string, string>
    var templates: map<string, Template>
    var testPlans: seq<PlanRow>

    constructor ()
      ensures settings == map[] && templates == map[] && testPlans == []
    {
      settings := map[];
      templates := map[];
      testPlans := [];
    }

    /** `INSERT OR REPLACE INTO settings (key, value, ...)`. The column is
        `NOT NULL`, so writing a missing value fails and leaves the table
        as it was; otherwise the key now maps to the value. */
    method PutSetting(key: string, value: Option<string>) returns (ok: bool)
      modifies this
      ensures ok == value.Some?
      ensures settings == if ok then old(settings)[key := value.value] else old(settings)
      ensures templates == old(templates) && testPlans == old(testPlans)
    {
      ok := value.Some?;
      if ok {
        settings := settings[key := value.value];
      }
    }

    /** `INSERT INTO templates ...` with a fresh id. */
    method InsertTemplate(t: Template)
      modifies this
      ensures templates == old(templates)[t.id := t]
      ensures settings == old(settings) && testPlans == old(testPlans)
    {
      templates := templates[t.id := t];
    }

    /** `INSERT INTO test_plans ...`. */
    method InsertPlan(row: PlanRow)
      modifies this
      ensures testPlans == old(testPlans) + [row]
      ensures settings == old(settings) && templates == old(templates)
    {
      testPlans := testPlans + [row];
    }

    /** `getTemplateById`: the row with that id, if any. */
    function GetTemplate(id: string): (r: Option<Template>)
      reads this
      ensures r.Some? <==> id in templates
      ensures r.Some? ==> r.value == templates[id]
    {
      if id in templates then Some(templates[id]) else None
    }
  }
}
