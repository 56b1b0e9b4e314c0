/**
 * The greeter: a missing or empty name gets the guest greeting, any other
 * name is put into the welcome template.
 */
module Greeter {
  import opened Wrappers

  /** The greeting for a missing or empty name. */
  const GuestGreeting: string := "Hello, guest!"
  /** The text before the name in a personal greeting. */
  const Salutation: string := "Hello, "
  /** The text after the name in a personal greeting. */
  const Welcome: string := "! Welcome."

  /** The name counts as absent: it is `None` or the empty string. */
  predicate IsBlank(name: Option<string>) {
    name.None? || name.value == ""
  }

  /**
   * The greeting for `name`: the guest greeting when the name is absent,
   * otherwise the salutation, the name and the welcome, in that order.
   */
  function GreetUser(name: Option<string>): (r: string)
    ensures |r| >= |Salutation| && r[..|Salutation|] == Salutation
    ensures r == GuestGreeting <==> IsBlank(name)
    ensures !IsBlank(name) ==>
      && |r| == |Salutation| + |name.value| + |Welcome|
      && r[|Salutation|..|r| - |Welcome|] == name.value
      && r[|r| - |Welcome|..] == Welcome
  {
    if IsBlank(name) then
      GuestGreeting
    else
      var r := Salutation + name.value + Welcome;
      assert r[..|Salutation|] == Salutation;
      assert r[|Salutation|..|r| - |Welcome|] == name.value;
      assert |r| != |GuestGreeting|;
      r
  }

  /**
   * The name a personal greeting was made for: what lies between the
   * salutation and the welcome, if `g` has that shape around a non-empty name.
   */
  function NameInGreeting(g: string): (r: Option<string>)
    ensures r.Some? ==> r.value != "" && GreetUser(Some(r.value)) == g
  {
    if |g| > |Salutation| + |Welcome|
       && g[..|Salutation|] == Salutation
       && g[|g| - |Welcome|..] == Welcome
    then
      var name := g[|Salutation|..|g| - |Welcome|];
      assert g == g[..|Salutation|] + name + g[|g| - |Welcome|..];
      Some(name)
    else
      None
  }

  /** A personal greeting gives back the name it was made for. */
  lemma GreetingRoundTrip(name: string)
    requires name != ""
    ensures NameInGreeting(GreetUser(Some(name))) == Some(name)
  {
  }

  /** The guest greeting carries no name. */
  lemma GuestGreetingHasNoName(name: Option<string>)
    requires IsBlank(name)
    ensures NameInGreeting(GreetUser(name)) == None
  {
  }

  /** Different non-empty names get different greetings. */
  lemma GreetUserInjective(a: string, b: string)
    requires a != "" && b != ""
    requires GreetUser(Some(a)) == GreetUser(Some(b))
    ensures a == b
  {
    GreetingRoundTrip(a);
    GreetingRoundTrip(b);
  }
}
