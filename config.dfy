/** The dashboard's settings, read from the process environment, and the
    start-up check that names the secrets that are missing. The environment
    is a parameter: a map from variable names to their values. */
module AppConfig {
  import opened Optional

  type Env = map<string, string>

  /** `process.env[name]`: the value, or `undefined` when unset. */
  function Lookup(env: Env, name: string): (r: Option<string>)
    ensures r.Some? <==> name in env
    ensures r.Some? ==> r.value == env[name]
  {
    if name in env then Some(env[name]) else None
  }

  /** `process.env[name]` is truthy: set and not empty. */
  predicate IsSet(env: Env, name: string) {
    name in env && env[name] != ""
  }

  /** `process.env[name] || fallback` */
  function OrDefault(env: Env, name: string, fallback: string): (r: string)
    ensures IsSet(env, name) ==> r == env[name]
    ensures !IsSet(env, name) ==> r == fallback
    ensures fallback != "" ==> r != ""
  {
    if IsSet(env, name) then env[name] else fallback
  }

  /** The `config` object. The three secrets keep the raw value, which may
      be absent or empty. */
  datatype Config = Config(
    dashboardUsername: string,
    dashboardPassword: string,
    erpUrl: string,
    erpApiKey: Option<string>,
    erpApiSecret: Option<string>,
    geminiApiKey: Option<string>,
    geminiModel: string,
    nodeEnv: string,
    appName: string)

  const AppName: string := "ERPNext 3D Dashboards"

  /** `config` as the module builds it from the environment. */
  function LoadConfig(env: Env): (c: Config)
    ensures c.dashboardUsername != "" && c.dashboardPassword != "" && c.erpUrl != ""
    ensures c.geminiModel != "" && c.nodeEnv != ""
    ensures !IsSet(env, "DASHBOARD_USERNAME") ==> c.dashboardUsername == "Administrator"
    ensures !IsSet(env, "DASHBOARD_PASS") ==> c.dashboardPassword == "admin"
    ensures !IsSet(env, "NEXT_PUBLIC_ERP_URL") ==> c.erpUrl == "https://demo.erpnext.com"
    ensures !IsSet(env, "GEMINI_MODEL") ==> c.geminiModel == "gemini-1.5-flash"
    ensures !IsSet(env, "NODE_ENV") ==> c.nodeEnv == "development"
    ensures IsSet(env, "DASHBOARD_USERNAME") ==> c.dashboardUsername == env["DASHBOARD_USERNAME"]
    ensures IsSet(env, "DASHBOARD_PASS") ==> c.dashboardPassword == env["DASHBOARD_PASS"]
    ensures IsSet(env, "NEXT_PUBLIC_ERP_URL") ==> c.erpUrl == env["NEXT_PUBLIC_ERP_URL"]
    ensures IsSet(env, "GEMINI_MODEL") ==> c.geminiModel == env["GEMINI_MODEL"]
    ensures IsSet(env, "NODE_ENV") ==> c.nodeEnv == env["NODE_ENV"]
    ensures c.erpApiKey.Some? <==> "ERP_API_KEY" in env
    ensures c.erpApiSecret.Some? <==> "ERP_API_SECRIT" in env
    ensures c.geminiApiKey.Some? <==> "GEMINI_API_KEY" in env
    ensures c.appName == AppName
  {
    Config(
      OrDefault(env, "DASHBOARD_USERNAME", "Administrator"),
      OrDefault(env, "DASHBOARD_PASS", "admin"),
      OrDefault(env, "NEXT_PUBLIC_ERP_URL", "https://demo.erpnext.com"),
      Lookup(env, "ERP_API_KEY"),
      Lookup(env, "ERP_API_SECRIT"),
      Lookup(env, "GEMINI_API_KEY"),
      OrDefault(env, "GEMINI_MODEL", "gemini-1.5-flash"),
      OrDefault(env, "NODE_ENV", "development"),
      AppName)
  }

  /** An optional value is truthy: present and not empty. */
  predicate Truthy(v: Option<string>) {
    v.Some? && v.value != ""
  }

  /** The variables `validateConfig` requires, in the order it checks them. */
  const Required: seq<string> := ["GEMINI_API_KEY", "ERP_API_KEY", "ERP_API_SECRIT"]

  /** The message for a variable that is not set: its name followed by
      " environment variable is not set". */
  function Message(name: string): string {
    name + " environment variable is not set"
  }

  /** The message of `name` when it is not set, nothing otherwise. */
  function IfMissing(env: Env, name: string): seq<string> {
    if IsSet(env, name) then [] else [Message(name)]
  }

  /** The messages `validateConfig` returns, in its order. */
  function ExpectedErrors(env: Env): seq<string> {
    IfMissing(env, Required[0]) + IfMissing(env, Required[1]) + IfMissing(env, Required[2])
  }

  /** `validateConfig()`: one message per required variable that is not
      set, pushed in order. */
  method ValidateConfig(env: Env) returns (errors: seq<string>)
    ensures errors == ExpectedErrors(env)
  {
    errors := [];
    if !IsSet(env, "GEMINI_API_KEY") {
      errors := errors + [Message("GEMINI_API_KEY")];
    }
    if !IsSet(env, "ERP_API_KEY") {
      errors := errors + [Message("ERP_API_KEY")];
    }
    if !IsSet(env, "ERP_API_SECRIT") {
      errors := errors + [Message("ERP_API_SECRIT")];
    }
  }

  /** The check passes exactly when all three variables are set. */
  lemma NoErrorsIffAllSet(env: Env)
    ensures ExpectedErrors(env) == [] <==>
      IsSet(env, "GEMINI_API_KEY") && IsSet(env, "ERP_API_KEY") && IsSet(env, "ERP_API_SECRIT")
  {
    if ExpectedErrors(env) == [] {
      assert |IfMissing(env, Required[0])| == 0;
      assert |IfMissing(env, Required[1])| == 0;
    }
  }

  /** Each message is reported exactly when its variable is not set; there
      are at most three, none twice, and each names a required variable. */
  lemma ErrorsAreTheMissing(env: Env)
    ensures var errors := ExpectedErrors(env);
      && (forall i :: 0 <= i < 3 ==> (Message(Required[i]) in errors <==> !IsSet(env, Required[i])))
      && |errors| <= 3
      && (forall i, j :: 0 <= i < j < |errors| ==> errors[i] != errors[j])
      && (forall m :: m in errors ==> exists i :: 0 <= i < 3 && m == Message(Required[i]))
  {
    var errors := ExpectedErrors(env);
    MessagesDistinct();
    forall i | 0 <= i < 3 ensures Message(Required[i]) in errors <==> !IsSet(env, Required[i]) {
      if IsSet(env, Required[i]) {
        assert forall m :: m in errors ==> exists k :: 0 <= k < 3 && k != i && m == Message(Required[k]);
      }
    }
  }

  /** The three messages differ. */
  lemma MessagesDistinct()
    ensures forall i, j :: 0 <= i < j < 3 ==> Message(Required[i]) != Message(Required[j])
  {
    assert Message(Required[0])[0] == 'G';
    assert Message(Required[1])[8] == 'K';
    assert Message(Required[2])[8] == 'S';
  }

  /** The messages come in the order the variables are checked: a message
      for an earlier variable is never after one for a later variable. */
  lemma ErrorsInOrder(env: Env, i: nat, j: nat)
    requires i < j < 3
    requires !IsSet(env, Required[i]) && !IsSet(env, Required[j])
    ensures var errors := ExpectedErrors(env);
      exists a, b :: 0 <= a < b < |errors| && errors[a] == Message(Required[i]) && errors[b] == Message(Required[j])
  {
    var errors := ExpectedErrors(env);
    var x := IfMissing(env, Required[0]);
    if i == 0 && j == 1 {
      assert errors[0] == Message(Required[0]) && errors[1] == Message(Required[1]);
    } else if i == 0 {
      assert errors[0] == Message(Required[0]);
      assert errors[|errors| - 1] == Message(Required[2]);
    } else {
      assert errors[|x|] == Message(Required[1]);
      assert errors[|x| + 1] == Message(Required[2]);
    }
  }

  /** The secret the check asks for is the one `config.erpApiSecret` reads,
      under the same spelling `ERP_API_SECRIT`: its message is reported
      exactly when the configured secret is falsy. The same holds for the two
      API keys. */
  lemma CheckedAreConfigured(env: Env)
    ensures var c := LoadConfig(env); var errors := ExpectedErrors(env);
      && (Message("ERP_API_SECRIT") in errors <==> !Truthy(c.erpApiSecret))
      && (Message("ERP_API_KEY") in errors <==> !Truthy(c.erpApiKey))
      && (Message("GEMINI_API_KEY") in errors <==> !Truthy(c.geminiApiKey))
  {
    ErrorsAreTheMissing(env);
  }
}
