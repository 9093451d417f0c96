/** AI personalities: named system-prompt configurations that set the style of
    generated scripts. */
module Personalities {
  import opened Common

  datatype AIPersonality = AIPersonality(
    id: string,
    name: string,
    description: string,
    systemPrompt: string,
    exampleScript: Option<string>)

  /** Personality construction: id, name and system prompt must be non-empty,
      checked in that order, so the first empty one names the error; the
      description and the example script are not checked. */
  function NewPersonality(id: string, name: string, description: string, systemPrompt: string,
                          exampleScript: Option<string> := None): (r: Result<AIPersonality, DomainError>)
    ensures r.Success? <==> id != [] && name != [] && systemPrompt != []
    ensures id == [] ==> r == Failure(EmptyId)
    ensures id != [] && name == [] ==> r == Failure(EmptyName)
    ensures id != [] && name != [] && systemPrompt == [] ==> r == Failure(EmptySystemPrompt)
    ensures r.Success? ==> r.value == AIPersonality(id, name, description, systemPrompt, exampleScript)
  {
    if id == [] then Failure(EmptyId)
    else if name == [] then Failure(EmptyName)
    else if systemPrompt == [] then Failure(EmptySystemPrompt)
    else Success(AIPersonality(id, name, description, systemPrompt, exampleScript))
  }
}
