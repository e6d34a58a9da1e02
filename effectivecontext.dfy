/**
 * `getEffectiveContext.ts`: the Docker context a key's settings select. The
 * name `default`, like no name at all, means the default client, so it is
 * never passed on as a `--context`.
 */
module EffectiveContext {
  import opened Wrappers
  import opened DockerCli

  /** The name Docker gives its built-in context. */
  const DEFAULT_CONTEXT := "default"

  /** `SettingsWithContext` */
  datatype Settings = Settings(contextName: Option<string>)

  /** `getEffectiveContext(settings)` */
  function GetEffectiveContext(settings: Option<Settings>): (r: Context)
    ensures r.Some? ==> settings == Some(Settings(r)) && r.value != "" && r.value != DEFAULT_CONTEXT
  {
    var perKey := if settings.Some? then settings.value.contextName.GetOr("") else "";
    if perKey == "" || perKey == DEFAULT_CONTEXT then None else Some(perKey)
  }

  /** The settings that select the default client: none, no name, an empty name, or `default`. */
  lemma DefaultSelections(settings: Option<Settings>)
    ensures GetEffectiveContext(settings).None? <==>
      || settings.None?
      || settings.value.contextName.None?
      || settings.value.contextName.value in {"", DEFAULT_CONTEXT}
  {
  }

  /** Feeding the effective context back as the settings' name changes nothing. */
  lemma Idempotent(settings: Option<Settings>)
    ensures var r := GetEffectiveContext(settings);
      GetEffectiveContext(Some(Settings(r))) == r
  {
  }

  /** The effective context is always named, so the command line gets `--context` exactly when it is present. */
  lemma EffectiveIsNamed(settings: Option<Settings>)
    ensures var r := GetEffectiveContext(settings);
      Named(r) <==> r.Some?
  {
  }
}
