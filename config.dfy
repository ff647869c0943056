/** The application settings, read from the environment, and their validation. */
module Config {
  import opened Wrappers
  import opened Text

  /** The environment as the process sees it: a variable's value, when it is set. */
  type Env = map<string, string>

  datatype Settings = Settings(
    openaiApiKey: Option<string>,
    googleCloudProject: Option<string>,
    googleCloudCredentialsPath: Option<string>,
    googleSheetsCredentialsPath: Option<string>,
    googleSheetsSpreadsheetId: Option<string>,
    debug: bool,
    primaryModel: string,
    backupModel: string)

  /** `os.getenv(name)`. */
  function GetEnv(env: Env, name: string): Option<string> {
    if name in env then Some(env[name]) else None
  }

  /** `os.getenv("DEBUG", "False").lower() == "true"`. */
  function ParseDebug(value: Option<string>): (r: bool)
    ensures r <==> value.Some? && Lower(value.value) == "true"
  {
    Lower(value.GetOr("False")) == "true"
  }

  /** An unset DEBUG, and any spelling of "false", leave debugging off; any case of "true" turns it on. */
  lemma DebugValues()
    ensures !ParseDebug(None)
    ensures !ParseDebug(Some("False"))
    ensures ParseDebug(Some("TRUE")) && ParseDebug(Some("True")) && ParseDebug(Some("true"))
    ensures !ParseDebug(Some("1"))
  {
    assert Lower("False") == "false";
    assert Lower("TRUE") == "true";
    assert Lower("True") == "true";
    assert Lower("1") == "1";
  }

  /** The class attributes of `Settings`, as read once from the environment. */
  function Load(env: Env): (s: Settings)
    ensures s.openaiApiKey == GetEnv(env, "OPENAI_API_KEY")
    ensures s.googleCloudProject == GetEnv(env, "GOOGLE_CLOUD_PROJECT")
    ensures s.googleCloudCredentialsPath == GetEnv(env, "GOOGLE_CLOUD_CREDENTIALS_PATH")
    ensures s.googleSheetsCredentialsPath == GetEnv(env, "GOOGLE_SHEETS_CREDENTIALS_PATH")
    ensures s.googleSheetsSpreadsheetId == GetEnv(env, "GOOGLE_SHEETS_SPREADSHEET_ID")
    ensures s.debug <==> "DEBUG" in env && Lower(env["DEBUG"]) == "true"
    ensures "PRIMARY_MODEL" in env ==> s.primaryModel == env["PRIMARY_MODEL"]
    ensures "PRIMARY_MODEL" !in env ==> s.primaryModel == "gpt-4-turbo"
    ensures "BACKUP_MODEL" in env ==> s.backupModel == env["BACKUP_MODEL"]
    ensures "BACKUP_MODEL" !in env ==> s.backupModel == "gpt-3.5-turbo"
  {
    Settings(
      GetEnv(env, "OPENAI_API_KEY"),
      GetEnv(env, "GOOGLE_CLOUD_PROJECT"),
      GetEnv(env, "GOOGLE_CLOUD_CREDENTIALS_PATH"),
      GetEnv(env, "GOOGLE_SHEETS_CREDENTIALS_PATH"),
      GetEnv(env, "GOOGLE_SHEETS_SPREADSHEET_ID"),
      ParseDebug(GetEnv(env, "DEBUG")),
      GetEnv(env, "PRIMARY_MODEL").GetOr("gpt-4-turbo"),
      GetEnv(env, "BACKUP_MODEL").GetOr("gpt-3.5-turbo"))
  }

  /** Python truthiness of an optional string: `None` and `""` are both falsy. */
  predicate Present(v: Option<string>) {
    v.Some? && v.value != ""
  }

  /** `required_configs`, in order. */
  function Required(s: Settings): seq<(string, Option<string>)> {
    [("OPENAI_API_KEY", s.openaiApiKey),
     ("GOOGLE_CLOUD_PROJECT", s.googleCloudProject),
     ("GOOGLE_SHEETS_SPREADSHEET_ID", s.googleSheetsSpreadsheetId)]
  }

  /** The names of the entries that are not present, in the order given. */
  function MissingNames(required: seq<(string, Option<string>)>): (r: seq<string>)
    ensures |r| <= |required|
  {
    if |required| == 0 then []
    else
      var n := |required| - 1;
      MissingNames(required[..n]) + (if Present(required[n].1) then [] else [required[n].0])
  }

  /** The names missing from `s`, in the fixed order. */
  function Missing(s: Settings): seq<string> {
    MissingNames(Required(s))
  }

  /** The outcome of `validate_config`: `True`, or the `ValueError`'s message. */
  function Validation(s: Settings): Outcome {
    var missing := Missing(s);
    if missing == [] then Pass
    else Fail("Missing required configuration: " + Join(", ", missing))
  }

  /** A name is listed exactly when its value is `None` or "", and the list keeps the fixed order. */
  lemma MissingIsOrdered(s: Settings)
    ensures Missing(s) ==
      (if Present(s.openaiApiKey) then [] else ["OPENAI_API_KEY"]) +
      (if Present(s.googleCloudProject) then [] else ["GOOGLE_CLOUD_PROJECT"]) +
      (if Present(s.googleSheetsSpreadsheetId) then [] else ["GOOGLE_SHEETS_SPREADSHEET_ID"])
  {
    var req := Required(s);
    assert req[..2][..1] == req[..1];
    assert req[..1][..0] == [];
    assert MissingNames(req[..1]) == MissingNames([]) + (if Present(req[0].1) then [] else [req[0].0]);
    assert MissingNames(req[..2]) == MissingNames(req[..1]) + (if Present(req[1].1) then [] else [req[1].0]);
    assert MissingNames(req) == MissingNames(req[..2]) + (if Present(req[2].1) then [] else [req[2].0]);
  }

  /** Validation passes exactly when all three required values are present. */
  lemma ValidationPassesIff(s: Settings)
    ensures Validation(s) == Pass <==>
      Present(s.openaiApiKey) && Present(s.googleCloudProject) && Present(s.googleSheetsSpreadsheetId)
  {
    MissingIsOrdered(s);
  }

  /** Neither credentials path is required. */
  lemma CredentialsNotRequired(s: Settings, cloud: Option<string>, sheets: Option<string>)
    ensures Validation(s.(googleCloudCredentialsPath := cloud, googleSheetsCredentialsPath := sheets))
      == Validation(s)
  {
    MissingIsOrdered(s);
    MissingIsOrdered(s.(googleCloudCredentialsPath := cloud, googleSheetsCredentialsPath := sheets));
  }

  /** With only the project missing, the message names it alone. */
  lemma OnlyProjectMissing(s: Settings)
    requires Present(s.openaiApiKey) && s.googleCloudProject == Some("") && Present(s.googleSheetsSpreadsheetId)
    ensures Validation(s) == Fail("Missing required configuration: " + "GOOGLE_CLOUD_PROJECT")
  {
    MissingIsOrdered(s);
    assert Missing(s) == ["GOOGLE_CLOUD_PROJECT"];
  }

  /** With nothing set, the message lists all three names, comma-separated, in order. */
  lemma NothingSet()
    ensures Validation(Load(map[])) == Fail("Missing required configuration: " +
      ("OPENAI_API_KEY" + ", " + "GOOGLE_CLOUD_PROJECT" + ", " + "GOOGLE_SHEETS_SPREADSHEET_ID"))
  {
    var s := Load(map[]);
    MissingIsOrdered(s);
    var names := ["OPENAI_API_KEY", "GOOGLE_CLOUD_PROJECT", "GOOGLE_SHEETS_SPREADSHEET_ID"];
    assert Missing(s) == names;
    JoinThree(names[0], names[1], names[2]);
    assert [names[0], names[1], names[2]] == names;
  }

  lemma JoinThree(a: string, b: string, c: string)
    ensures Join(", ", [a, b, c]) == a + ", " + b + ", " + c
  {
    assert [a, b, c][1..] == [b, c];
    assert [b, c][1..] == [c];
    assert Join(", ", [c]) == c;
    assert Join(", ", [b, c]) == b + ", " + c;
    assert Join(", ", [a, b, c]) == a + ", " + (b + ", " + c);
  }

  /** `validate_config`: the loop that collects the missing names, then the raise. */
  method ValidateConfig(s: Settings) returns (r: Outcome)
    ensures r == Validation(s)
  {
    var requiredConfigs := Required(s);
    var missingConfigs: seq<string> := [];
    for i := 0 to |requiredConfigs|
      invariant missingConfigs == MissingNames(requiredConfigs[..i])
    {
      var (configName, configValue) := requiredConfigs[i];
      assert requiredConfigs[..i + 1][..i] == requiredConfigs[..i];
      if !Present(configValue) {
        missingConfigs := missingConfigs + [configName];
      }
    }
    assert requiredConfigs[..|requiredConfigs|] == requiredConfigs;
    if missingConfigs != [] {
      return Fail("Missing required configuration: " + Join(", ", missingConfigs));
    }
    return Pass;
  }
}
