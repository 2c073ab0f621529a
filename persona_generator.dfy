/**
 * The shape check of the persona-generation step. The request and `JSON.parse` are the
 * `personaApi` oracle of `Env`; what the bot relies on is the check that follows them.
 */
module PersonaGenerator {
  import opened Wrappers
  import opened Domain

  /** How many candidates a situation gets. */
  const PersonaCount: nat := 5

  /** `generatePersonaOptions`: the parsed array is accepted only with exactly five entries;
      a thrown request or parse, and an array of any other length, are failures. */
  function GeneratePersonaOptions(env: Env, situation: string, targetLanguage: string): (r: Option<seq<Persona>>)
    ensures r.Some? <==> env.personaApi(situation, targetLanguage).Some?
                         && |env.personaApi(situation, targetLanguage).value| == PersonaCount
    ensures r.Some? ==> r.value == env.personaApi(situation, targetLanguage).value
  {
    match env.personaApi(situation, targetLanguage)
    case None => None
    case Some(parsed) => if |parsed| != PersonaCount then None else Some(parsed)
  }
}
