/**
 * The shape of the configuration document: a gateway section, named auth
 * profiles and named provider slots, each with an ordered model list.
 */
module Config {
  import opened Results
  import opened Json

  predicate IsStr(v: Option<Json>)
  {
    v.Some? && v.value.Str?
  }

  predicate IsStrIn(v: Option<Json>, allowed: set<string>)
  {
    v.Some? && v.value.Str? && v.value.s in allowed
  }

  const ProviderNames: set<string> := {"openai", "anthropic", "google", "custom"}

  predicate IsGateway(g: Json)
  {
    && g.Obj? && UniqueKeys(g.members)
    && Get(g, "port").Some? && Get(g, "port").value.Num?
    && IsStrIn(Get(g, "mode"), {"local", "remote"})
    && IsStrIn(Get(g, "bind"), {"loopback", "all"})
    && Get(g, "auth").Some?
    && IsStrIn(Get(Get(g, "auth").value, "mode"), {"token"})
    && IsStr(Get(Get(g, "auth").value, "token"))
  }

  predicate IsProfile(p: Json)
  {
    p.Obj? && UniqueKeys(p.members) && IsStrIn(Get(p, "provider"), ProviderNames) && IsStr(Get(p, "mode"))
  }

  predicate IsModel(m: Json)
  {
    && m.Obj? && UniqueKeys(m.members)
    && IsStr(Get(m, "id")) && IsStr(Get(m, "name"))
    && Get(m, "reasoning").Some? && Get(m, "reasoning").value.Bool?
  }

  predicate IsProviderSlot(s: Json)
  {
    && s.Obj? && UniqueKeys(s.members)
    && IsStr(Get(s, "baseUrl")) && IsStr(Get(s, "apiKey")) && IsStr(Get(s, "api"))
    && Get(s, "models").Some? && Get(s, "models").value.Arr? && AreModels(Get(s, "models").value.items)
  }

  predicate AreModels(items: seq<Json>)
  {
    forall i :: 0 <= i < |items| ==> IsModel(items[i])
  }

  /** An object with unique names whose every value satisfies `valid`. */
  predicate IsNamed(j: Json, valid: Json -> bool)
  {
    j.Obj? && UniqueKeys(j.members) && forall i :: 0 <= i < |j.members| ==> valid(j.members[i].1)
  }

  /** A well-formed configuration document. */
  predicate IsDocument(doc: Json)
  {
    && doc.Obj? && UniqueKeys(doc.members)
    && IsStr(At(doc, ["meta", "lastTouchedBy"]))
    && Get(doc, "gateway").Some? && IsGateway(Get(doc, "gateway").value)
    && At(doc, ["auth", "profiles"]).Some? && IsNamed(At(doc, ["auth", "profiles"]).value, IsProfile)
    && At(doc, ["models", "providers"]).Some? && IsNamed(At(doc, ["models", "providers"]).value, IsProviderSlot)
  }
}
