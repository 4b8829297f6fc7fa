/**
 * Configuration defaulting (backend/internal/config/config.go).
 *
 * The process environment is a map from variable names to values; a name
 * that is absent reads as "", as `os.Getenv` returns. The environment is the
 * one in force after the optional `.env` file has been applied, which the
 * model does not read.
 */
module Config {
  import opened Wrappers

  type Env = map<string, string>

  /** `os.Getenv`: the value, or "" when the variable is unset. */
  function Getenv(env: Env, key: string): string {
    if key in env then env[key] else ""
  }

  /** `getEnv(key, defaultValue)`: a non-empty value wins, otherwise the default. */
  function GetEnv(env: Env, key: string, default: string): (v: string)
    ensures Getenv(env, key) != "" ==> v == Getenv(env, key)
    ensures Getenv(env, key) == "" ==> v == default
    ensures v == "" ==> default == ""
  {
    var value := Getenv(env, key);
    if value != "" then value else default
  }

  // ---------------------------------------------------------------------
  // `strconv.Atoi` in base 10: an optional sign, then one or more ASCII
  // digits, no spaces and no underscores, and a value that fits in a 64-bit
  // `int`; anything else is an error.
  // ---------------------------------------------------------------------

  const MaxInt64: int := 0x7fff_ffff_ffff_ffff
  const MinInt64: int := -0x8000_0000_0000_0000

  predicate IsDigit(c: char) {
    '0' <= c <= '9'
  }

  predicate AllDigits(s: string) {
    forall i | 0 <= i < |s| :: IsDigit(s[i])
  }

  function DigitValue(c: char): nat
    requires IsDigit(c)
  {
    (c as int) - ('0' as int)
  }

  /** The value of a string of decimal digits, most significant first. */
  function DecimalValue(s: string): nat
    requires AllDigits(s)
  {
    if s == [] then 0 else DecimalValue(s[..|s| - 1]) * 10 + DigitValue(s[|s| - 1])
  }

  /** `strconv.Atoi`, with its error as `None`. */
  function Atoi(s: string): (r: Option<int>)
    ensures r.Some? ==> MinInt64 <= r.value <= MaxInt64
    ensures r.Some? ==> s != "" && s != "-" && s != "+"
  {
    var signed := |s| > 0 && (s[0] == '-' || s[0] == '+');
    var digits := if signed then s[1..] else s;
    if digits == [] || !AllDigits(digits) then None
    else
      var n: int := if signed && s[0] == '-' then -(DecimalValue(digits) as int) else DecimalValue(digits);
      if MinInt64 <= n <= MaxInt64 then Some(n) else None
  }

  /** `getEnvInt(key, defaultValue)`: a non-empty value that parses wins, otherwise the default. */
  function GetEnvInt(env: Env, key: string, default: int): (v: int)
    ensures Getenv(env, key) == "" ==> v == default
    ensures Atoi(Getenv(env, key)).None? ==> v == default
    ensures Atoi(Getenv(env, key)).Some? ==> v == Atoi(Getenv(env, key)).value
  {
    var value := Getenv(env, key);
    if value != "" then
      match Atoi(value)
      case Some(n) => n
      case None => default
    else default
  }

  // ---------------------------------------------------------------------
  // `strconv.Itoa`, the inverse that `Atoi` undoes.
  // ---------------------------------------------------------------------

  function DigitChar(d: nat): (c: char)
    requires d < 10
    ensures IsDigit(c) && DigitValue(c) == d
  {
    ('0' as int + d) as char
  }

  function DecimalDigits(n: nat): (s: string)
    ensures s != [] && AllDigits(s)
  {
    if n < 10 then [DigitChar(n)] else DecimalDigits(n / 10) + [DigitChar(n % 10)]
  }

  /** `strconv.Itoa`: the shortest decimal spelling, with "-" on negatives. */
  function Itoa(n: int): string {
    if n < 0 then "-" + DecimalDigits(-n) else DecimalDigits(n)
  }

  lemma {:induction false} DecimalValueOfDigits(n: nat)
    ensures DecimalValue(DecimalDigits(n)) == n
  {
    var s := DecimalDigits(n);
    if n >= 10 {
      DecimalValueOfDigits(n / 10);
      assert s[..|s| - 1] == DecimalDigits(n / 10);
    }
  }

  /** Every 64-bit integer survives printing and parsing. */
  lemma AtoiItoa(n: int)
    requires MinInt64 <= n <= MaxInt64
    ensures Atoi(Itoa(n)) == Some(n)
  {
    var s := Itoa(n);
    if n < 0 {
      var d := DecimalDigits(-n);
      DecimalValueOfDigits(-n);
      assert s == "-" + d && s[0] == '-' && s[1..] == d;
      assert AllDigits(d) && d != [];
      assert -(DecimalValue(d) as int) == n;
    } else {
      DecimalValueOfDigits(n);
      assert s == DecimalDigits(n) && IsDigit(s[0]);
      assert s[0] != '-' && s[0] != '+';
    }
  }

  /** What the parser accepts and refuses, on small cases. */
  lemma AtoiExamples()
    ensures Atoi("168") == Some(168)
    ensures Atoi("-3") == Some(-3)
    ensures Atoi("+7") == Some(7)
    ensures Atoi("") == None && Atoi("-") == None && Atoi("+") == None
    ensures Atoi("12h") == None && Atoi(" 1") == None && Atoi("1_0") == None
  {
    assert Atoi("168") == Some(168) by {
      assert DecimalValue("168") == 168 by {
        assert "168"[..2] == "16" && "16"[..1] == "1" && "1"[..0] == "";
      }
    }
    assert Atoi("-3") == Some(-3) by {
      assert "-3"[1..] == "3" && "3"[..0] == "";
    }
    assert Atoi("+7") == Some(7) by {
      assert "+7"[1..] == "7" && "7"[..0] == "";
    }
    assert !AllDigits("12h") by { assert !IsDigit("12h"[2]); }
    assert !AllDigits(" 1") by { assert !IsDigit(" 1"[0]); }
    assert !AllDigits("1_0") by { assert !IsDigit("1_0"[1]); }
  }

  // ---------------------------------------------------------------------
  // Properties of the lookup rules.
  // ---------------------------------------------------------------------

  /** A variable set to "" behaves exactly like an unset one. */
  lemma EmptyValueIsUnset(env: Env, key: string, d: string, n: int)
    ensures GetEnv(env[key := ""], key, d) == GetEnv(env - {key}, key, d) == d
    ensures GetEnvInt(env[key := ""], key, n) == GetEnvInt(env - {key}, key, n) == n
  {
  }

  /** An integer written into the environment is read back. */
  lemma GetEnvIntReadsBack(env: Env, key: string, n: int, d: int)
    requires MinInt64 <= n <= MaxInt64
    ensures GetEnvInt(env[key := Itoa(n)], key, d) == n
  {
    AtoiItoa(n);
  }

  // ---------------------------------------------------------------------
  // `Load`.
  // ---------------------------------------------------------------------

  datatype Config = Config(
    port: string,
    environment: string,
    databaseUrl: string,
    supabaseUrl: string,
    supabaseAnonKey: string,
    jwtSecret: string,
    jwtExpiryHours: int,
    refreshExpiryHours: int,
    razorpayKeyId: string,
    razorpayKeySecret: string,
    razorpayWebhookSecret: string,
    fcmServerKey: string,
    msg91AuthKey: string,
    msg91SenderId: string,
    msg91FlowId: string)

  /** `Load`: one lookup per field, each with its default. It has no error
      path: the source always returns a nil error, so the result is the record.
      The two fields with a non-empty default are never empty, the integer
      fields are 64-bit values, and a field whose default is "" is the
      variable's raw value. */
  function Load(env: Env): (c: Config)
    ensures c.port != "" && c.environment != ""
    ensures MinInt64 <= c.jwtExpiryHours <= MaxInt64 && MinInt64 <= c.refreshExpiryHours <= MaxInt64
    ensures c.databaseUrl == Getenv(env, "DATABASE_URL") && c.jwtSecret == Getenv(env, "JWT_SECRET")
    ensures c.supabaseUrl == Getenv(env, "SUPABASE_URL") && c.supabaseAnonKey == Getenv(env, "SUPABASE_ANON_KEY")
    ensures c.razorpayKeyId == Getenv(env, "RAZORPAY_KEY_ID") && c.razorpayKeySecret == Getenv(env, "RAZORPAY_KEY_SECRET")
    ensures c.razorpayWebhookSecret == Getenv(env, "RAZORPAY_WEBHOOK_SECRET") && c.fcmServerKey == Getenv(env, "FCM_SERVER_KEY")
    ensures c.msg91AuthKey == Getenv(env, "MSG91_AUTH_KEY") && c.msg91SenderId == Getenv(env, "MSG91_SENDER_ID")
    ensures c.msg91FlowId == Getenv(env, "MSG91_FLOW_ID")
  {
    Config(
      port := GetEnv(env, "PORT", "8080"),
      environment := GetEnv(env, "ENVIRONMENT", "development"),
      databaseUrl := GetEnv(env, "DATABASE_URL", ""),
      supabaseUrl := GetEnv(env, "SUPABASE_URL", ""),
      supabaseAnonKey := GetEnv(env, "SUPABASE_ANON_KEY", ""),
      jwtSecret := GetEnv(env, "JWT_SECRET", ""),
      jwtExpiryHours := GetEnvInt(env, "JWT_EXPIRY_HOURS", 1),
      refreshExpiryHours := GetEnvInt(env, "REFRESH_EXPIRY_HOURS", 168),
      razorpayKeyId := GetEnv(env, "RAZORPAY_KEY_ID", ""),
      razorpayKeySecret := GetEnv(env, "RAZORPAY_KEY_SECRET", ""),
      razorpayWebhookSecret := GetEnv(env, "RAZORPAY_WEBHOOK_SECRET", ""),
      fcmServerKey := GetEnv(env, "FCM_SERVER_KEY", ""),
      msg91AuthKey := GetEnv(env, "MSG91_AUTH_KEY", ""),
      msg91SenderId := GetEnv(env, "MSG91_SENDER_ID", ""),
      msg91FlowId := GetEnv(env, "MSG91_FLOW_ID", ""))
  }

  /** In an empty environment every field takes its documented default. */
  lemma LoadDefaults()
    ensures Load(map[]) == Config(
      "8080", "development", "", "", "", "", 1, 168, "", "", "", "", "", "", "")
  {
  }

  /** Each string field depends on its own variable only. */
  lemma LoadFieldsIndependent(e1: Env, e2: Env)
    ensures Getenv(e1, "PORT") == Getenv(e2, "PORT") ==> Load(e1).port == Load(e2).port
    ensures Getenv(e1, "ENVIRONMENT") == Getenv(e2, "ENVIRONMENT") ==> Load(e1).environment == Load(e2).environment
    ensures Getenv(e1, "DATABASE_URL") == Getenv(e2, "DATABASE_URL") ==> Load(e1).databaseUrl == Load(e2).databaseUrl
    ensures Getenv(e1, "SUPABASE_URL") == Getenv(e2, "SUPABASE_URL") ==> Load(e1).supabaseUrl == Load(e2).supabaseUrl
    ensures Getenv(e1, "SUPABASE_ANON_KEY") == Getenv(e2, "SUPABASE_ANON_KEY") ==> Load(e1).supabaseAnonKey == Load(e2).supabaseAnonKey
    ensures Getenv(e1, "JWT_SECRET") == Getenv(e2, "JWT_SECRET") ==> Load(e1).jwtSecret == Load(e2).jwtSecret
    ensures Getenv(e1, "RAZORPAY_KEY_ID") == Getenv(e2, "RAZORPAY_KEY_ID") ==> Load(e1).razorpayKeyId == Load(e2).razorpayKeyId
    ensures Getenv(e1, "RAZORPAY_KEY_SECRET") == Getenv(e2, "RAZORPAY_KEY_SECRET") ==> Load(e1).razorpayKeySecret == Load(e2).razorpayKeySecret
    ensures Getenv(e1, "RAZORPAY_WEBHOOK_SECRET") == Getenv(e2, "RAZORPAY_WEBHOOK_SECRET") ==> Load(e1).razorpayWebhookSecret == Load(e2).razorpayWebhookSecret
    ensures Getenv(e1, "FCM_SERVER_KEY") == Getenv(e2, "FCM_SERVER_KEY") ==> Load(e1).fcmServerKey == Load(e2).fcmServerKey
    ensures Getenv(e1, "MSG91_AUTH_KEY") == Getenv(e2, "MSG91_AUTH_KEY") ==> Load(e1).msg91AuthKey == Load(e2).msg91AuthKey
    ensures Getenv(e1, "MSG91_SENDER_ID") == Getenv(e2, "MSG91_SENDER_ID") ==> Load(e1).msg91SenderId == Load(e2).msg91SenderId
    ensures Getenv(e1, "MSG91_FLOW_ID") == Getenv(e2, "MSG91_FLOW_ID") ==> Load(e1).msg91FlowId == Load(e2).msg91FlowId
  {
  }

  /** The two integer fields depend on their own variables only. */
  lemma LoadIntFieldsIndependent(e1: Env, e2: Env)
    ensures Getenv(e1, "JWT_EXPIRY_HOURS") == Getenv(e2, "JWT_EXPIRY_HOURS") ==> Load(e1).jwtExpiryHours == Load(e2).jwtExpiryHours
    ensures Getenv(e1, "REFRESH_EXPIRY_HOURS") == Getenv(e2, "REFRESH_EXPIRY_HOURS") ==> Load(e1).refreshExpiryHours == Load(e2).refreshExpiryHours
  {
  }

  /** Setting any variable to "" loads the same record as leaving it unset. */
  lemma LoadEmptyIsUnset(env: Env, key: string)
    ensures Load(env[key := ""]) == Load(env - {key})
  {
    forall name: string
      ensures Getenv(env[key := ""], name) == Getenv(env - {key}, name)
    {
    }
    LoadAgrees(env[key := ""], env - {key});
  }

  /** Two environments that read alike load alike. */
  lemma LoadAgrees(e1: Env, e2: Env)
    requires forall name: string :: Getenv(e1, name) == Getenv(e2, name)
    ensures Load(e1) == Load(e2)
  {
  }
}
