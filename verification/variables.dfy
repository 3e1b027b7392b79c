/** The variable context a template is rendered against: named string
    values, one of which, "input", is the value a function receives when
    it is called without an argument. */
module ContextVariables {

  type Variables = map<string, string>

  const InputKey: string := "input"

  /** The value of a variable, or the empty string when it is not set;
      reading an unset variable is not an error. */
  function Get(v: Variables, name: string): (r: string)
    ensures name in v ==> r == v[name]
    ensures name !in v ==> r == ""
  {
    if name in v then v[name] else ""
  }

  /** Sets one variable, leaving every other one as it was. */
  function Set(v: Variables, name: string, value: string): (r: Variables)
    ensures r.Keys == v.Keys + {name}
    ensures Get(r, name) == value
    ensures forall other :: other != name ==> Get(r, other) == Get(v, other)
  {
    v[name := value]
  }

  /** Replaces the input value. */
  function Update(v: Variables, input: string): (r: Variables)
    ensures Get(r, InputKey) == input
    ensures forall other :: other != InputKey ==> Get(r, other) == Get(v, other)
  {
    Set(v, InputKey, input)
  }
}
