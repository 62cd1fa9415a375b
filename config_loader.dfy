/**
 * Credential resolution of app/utils/config_loader.py: a region's own user and password,
 * each falling back on its own to the shared radio login. The environment is a map.
 */
module ConfigLoader {
  import opened Options
  import opened Exceptions
  import opened PyText

  /** The region name as looked up: surrounding whitespace removed, upper-cased. */
  function RegionKey(regiao: string): string {
    Upper(Strip(regiao))
  }

  /** `os.getenv(key)`. */
  function GetEnv(env: map<string, string>, key: string): Option<string> {
    if key in env then Some(env[key]) else None
  }

  /** `primary or fallback` over two optional strings: an empty or missing primary gives the fallback. */
  function OrElse(primary: Option<string>, fallback: Option<string>): (r: Option<string>)
    ensures primary.Some? && primary.value != "" ==> r == primary
    ensures (primary.None? || primary.value == "") ==> r == fallback
  {
    if primary.Some? && primary.value != "" then primary else fallback
  }

  /** The value a setting resolves to: the region's own, else the shared one. */
  function Resolve(env: map<string, string>, regional: string, shared: string): Option<string> {
    OrElse(GetEnv(env, regional), GetEnv(env, shared))
  }

  predicate Present(v: Option<string>) {
    v.Some? && v.value != ""
  }

  /** `ConfigLoader.get_credentials(regiao)`: the user and password for a region. */
  function GetCredentials(regiao: string, env: map<string, string>): (r: Call<(string, string)>)
    ensures var key := RegionKey(regiao);
      r.Returns? <==> Present(Resolve(env, key + "_USER", "RADIO_USER")) && Present(Resolve(env, key + "_PASS", "RADIO_PASS"))
    ensures r.Returns? ==> r.value.0 != "" && r.value.1 != ""
    ensures r.Raises? ==> r.error == Error(ValueError, "Credenciais para a região '" + RegionKey(regiao) + "' não encontradas no .env")
  {
    var key := RegionKey(regiao);
    var user := Resolve(env, key + "_USER", "RADIO_USER");
    var password := Resolve(env, key + "_PASS", "RADIO_PASS");
    if !Present(user) || !Present(password) then
      Raises(Error(ValueError, "Credenciais para a região '" + key + "' não encontradas no .env"))
    else Returns((user.value, password.value))
  }

  /** A region's own non-empty setting wins over the shared one; otherwise the shared one is used, for each field separately. */
  lemma ResolutionPerField(regiao: string, env: map<string, string>)
    requires GetCredentials(regiao, env).Returns?
    ensures var key := RegionKey(regiao); var r := GetCredentials(regiao, env).value;
      && (key + "_USER" in env && env[key + "_USER"] != "" ==> r.0 == env[key + "_USER"])
      && (key + "_USER" !in env || env[key + "_USER"] == "" ==> "RADIO_USER" in env && r.0 == env["RADIO_USER"])
      && (key + "_PASS" in env && env[key + "_PASS"] != "" ==> r.1 == env[key + "_PASS"])
      && (key + "_PASS" !in env || env[key + "_PASS"] == "" ==> "RADIO_PASS" in env && r.1 == env["RADIO_PASS"])
  {
  }

  /** The user may come from the region while the password comes from the shared login. */
  lemma MixedResolution()
    ensures GetCredentials("rj", map["RJ_USER" := "tecnico", "RADIO_PASS" := "segredo"]) == Returns(("tecnico", "segredo"))
  {
    var env := map["RJ_USER" := "tecnico", "RADIO_PASS" := "segredo"];
    StripOfTrimmed("rj");
    assert RegionKey("rj") == "RJ";
    assert "RJ" + "_USER" == "RJ_USER";
    assert "RJ" + "_PASS" == "RJ_PASS";
    assert "RJ_PASS" !in env;
  }

  /** Normalising a region name twice changes nothing, so a normalised name resolves as the raw one does. */
  lemma RegionKeyIdempotent(regiao: string)
    ensures RegionKey(RegionKey(regiao)) == RegionKey(regiao)
  {
    var t := Strip(regiao);
    StripProperties(regiao);
    UpperKeepsSpaces(t);
    StripOfTrimmed(Upper(t));
    UpperIdempotent(t);
  }

  /** A raw region name and its normalised form look up the same credentials. */
  lemma NormalisedRegionSame(regiao: string, env: map<string, string>)
    ensures GetCredentials(RegionKey(regiao), env) == GetCredentials(regiao, env)
  {
    RegionKeyIdempotent(regiao);
  }
}
