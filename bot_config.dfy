/**
  * The configuration `ChordBot.__init__` reads from the environment (bot.py). Each field is a
  * pure expression over environment strings, assigned once; the three failures it can raise
  * are the Err cases, in the order the constructor meets them.
  */
module BotConfig {
  import opened Wrappers
  import opened Text

  /** The process environment after `load_dotenv`. */
  type Env = map<string, string>

  /** `os.getenv(key, default)`: a set variable is returned even when it is empty. */
  function Getenv(env: Env, key: string, default: string): string {
    if key in env then env[key] else default
  }

  datatype Config = Config(prefix: string, baseUrl: string, autoDeleteEnabled: bool,
                           autoDeleteSeconds: int, ownerId: nat)

  /** The five raw values, defaults applied. */
  datatype Settings = Settings(prefix: string, baseUrl: string, autoDelete: string, seconds: string, owner: string)

  function Read(env: Env): Settings {
    Settings(Getenv(env, "BOT_PREFIX", ";"),
             Getenv(env, "JIOSAAVN_API_BASE_URL", ""),
             Getenv(env, "AUTO_DELETE_ENABLED", "true"),
             Getenv(env, "AUTO_DELETE_SECONDS", "12"),
             Getenv(env, "OWNER_ID", ""))
  }

  const MissingBaseUrl := "RuntimeError: JIOSAAVN_API_BASE_URL is missing in .env"
  const BadOwner := "RuntimeError: OWNER_ID is missing or invalid in .env"

  /** The values that switch message auto-deletion on, compared after lowercasing. */
  predicate IsTruthy(s: string) {
    LowerStr(s) in {"1", "true", "yes", "on"}
  }

  /** The checks and conversions of the constructor, over the raw values. */
  function FromSettings(s: Settings): Result<Config, string> {
    var base := Strip(s.baseUrl);
    if base == [] then Err(MissingBaseUrl)
    else
      match ParsePyInt(s.seconds)
      case None => Err("ValueError")
      case Some(seconds) =>
        var owner := Strip(s.owner);
        if !IsDigitString(owner) then Err(BadOwner)
        else Ok(Config(s.prefix, RStripChar(base, '/'), IsTruthy(s.autoDelete), Max(0, seconds), DigitsValue(owner)))
  }

  function Configure(env: Env): Result<Config, string> {
    FromSettings(Read(env))
  }

  /**
    * The constructor fails exactly when the stripped base URL is blank, the seconds are not
    * an integer, or the stripped owner id is not all digits, and it reports the first of these.
    */
  lemma ConfigureFails(s: Settings)
    ensures var base := Strip(s.baseUrl);
      var secs := ParsePyInt(s.seconds);
      var owner := Strip(s.owner);
      && (FromSettings(s).Err? <==> base == [] || secs.None? || !IsDigitString(owner))
      && (base == [] ==> FromSettings(s) == Err(MissingBaseUrl))
      && (base != [] && secs.None? ==> FromSettings(s) == Err("ValueError"))
      && (base != [] && secs.Some? && !IsDigitString(owner) ==> FromSettings(s) == Err(BadOwner))
  {
  }

  /**
    * A successful configuration keeps the prefix as given, switches auto-deletion on exactly
    * for a truthy value, floors the delay at 0, and takes the owner id's digits.
    */
  lemma ConfigureSpec(s: Settings)
    requires FromSettings(s).Ok?
    ensures var c := FromSettings(s).value;
      && c.prefix == s.prefix
      && c.baseUrl == RStripChar(Strip(s.baseUrl), '/')
      && (c.autoDeleteEnabled <==> IsTruthy(s.autoDelete))
      && c.autoDeleteSeconds >= 0
      && ParsePyInt(s.seconds).Some? && c.autoDeleteSeconds == Max(0, ParsePyInt(s.seconds).value)
      && IsDigitString(Strip(s.owner)) && c.ownerId == DigitsValue(Strip(s.owner))
  {
  }

  /** The stored base URL is the stripped value without its trailing run of '/'. */
  lemma BaseUrlSpec(raw: string)
    ensures var base := Strip(raw);
      var url := RStripChar(base, '/');
      && |url| <= |base| && base == url + base[|url|..]
      && (url == [] || url[|url| - 1] != '/')
      && (forall i :: |url| <= i < |base| ==> base[i] == '/')
  {
    RStripSlashes(Strip(raw));
  }

  lemma RStripSlashes(base: string)
    ensures var url := RStripChar(base, '/');
      && |url| <= |base| && base == url + base[|url|..]
      && (url == [] || url[|url| - 1] != '/')
      && (forall i :: |url| <= i < |base| ==> base[i] == '/')
  {
    var url := RStripChar(base, '/');
    assert base == base[..|url|] + base[|url|..];
  }

  /** Unset variables give the prefix ";", auto-deletion on, and a delay of 12 seconds. */
  lemma Defaults(env: Env)
    ensures "BOT_PREFIX" !in env ==> Read(env).prefix == ";"
    ensures "AUTO_DELETE_ENABLED" !in env ==> IsTruthy(Read(env).autoDelete)
    ensures "AUTO_DELETE_SECONDS" !in env ==> ParsePyInt(Read(env).seconds) == Some(12)
  {
    assert LowerStr("true") == "true";
    DigitsValueOfNatToString(12);
    assert NatToString(12) == "12";
    ParsePyIntOfDigits("12");
  }
}
